# A model of the CI scheduler and its run protocol

Three programs share the work of this CI system.  The web server turns pushes into jobs and pending runs
and shows what became of them.  The driver holds connections from clients on build hosts, gives each a
run, and records how the run went.  The runner, at the other end of such a connection, checks the commit
out, carries out its goodfile and reports.  All they share is a database, whose connection is guarded by a
lock, and a pair of first-in first-out message streams for each client.  Nothing else keeps them apart,
so most of what matters is a statement about interleavings, and that is what is proved here.

`Common.dfy`, `Sorting.dfy`, `Store.dfy` and `Protocol.dfy` hold the shared vocabulary.  `Store.dfy` also says
a second time, of the columns alone, which work there is for whom; the main statements are made in those terms
or in columns and numbers written out.  The rest is by component.

## The driver among its clients

`System.dfy` is the driver as an interleaved machine.  A step is one critical section on the database, one
message, or one access to the map of active tasks; the clock moves forward by steps of its own, clients
come and vanish, pushes arrive, artifact requests are served in two steps, and the process may die and be
started again.  A value the program reads from the clock before it takes the lock may be older than the
lock.  `Times.dfy` says what the recorded times are the times of, and `Progress.dfy` that nobody in it is stuck.

* `Reaper.dfy`.  The reaper reads the runs, later the active tasks, later the clock, and later still writes
  without looking.  Under every interleaving, from any well-formed tables, what it marks dead is exactly the runs
  that had already started when the process began and whose start time is missing or over a minute old.
* `Lifecycle.dfy`.  The code claims no run between the pending query and the update that starts it.
  `DisjointPicks` says that no two clients hold the same run.  While it holds every row has exactly the
  columns its state calls for and no run is activated twice.  Whatever the picks, no run returns to Pending,
  none starts in the future, and an ended run has the result of the way it ended.
* `Claims.dfy`.  The exact condition for at-most-once activation, in every state of every interleaving: no
  run is activated twice before the pending query is next answered if and only if none has been so far, no
  two clients hold the same run, and no client still holds a run that was activated already.
  `ARunCanStartTwice` leads from empty tables to a run activated twice, and `OneStartedOneHolds` to a state
  where only the last of the three fails.
* `Placement.dfy`.  Any run that carries a host suits that host and the client that took it, in every
  interleaving.
* `Alternates.dfy`.  With one searching client per host, no job is given two alternate runs for a host.
  `OneAlternateExactly` has the exact condition, again for any state of any interleaving: there are no two,
  no client is about to make a run that has been made since it chose, and no two clients are about to make
  the same.  `TwoClientsOneHost` and `ChosenAfterMade` lead to states where the last and the second fail.
* `Attribution.dfy`.  Tokens identify runs in every interleaving; with disjoint picks an artifact is never
  older than its run's start, so the job page's filter by time hides none.  (What is listed to begin with is
  only what a command wrote to its standard streams.)
* `Display.dfy`.  In every interleaving run times never underflow, and a finished run is shown as passed.
  With disjoint picks no time is invalid, and what the pages show follows the state.
* `Verdicts.dfy`.  With disjoint picks and clients that report as those of `Session.dfy` do, each run ends with
  the verdict of the task that was given its token.

## The loops of the driver

`Database.dfy` keeps the run and job tables in an object, with the driver's queries as loops over it, each
proved against what its SQL selects.  `Driver.dfy` has the search for work with its deadline, and the
reaper's sweep with its `swap_remove`.  The bound of 3010 passes is met exactly by naps that last no longer
than asked for.  `Drain.dfy` shows that, while nothing is pushed, each client of a host that is given work
leaves strictly less to do there, whatever other hosts, reports and the reaper do between visits, and that
the first client that finds nothing leaves nothing undone.

## The protocol

`Runner.dfy` carries out one task and `ClientJob.dfy` is the driver's end of it.  Together they show that the
row, the metrics and what the notifiers are told agree with what happened on the build host, up to every
prefix of the conversation.  `Session.dfy` joins the two ends by channels, with either end free to die at any
step: no branch for a message out of place is ever taken, there is no deadlock, a hand-over leads to an end
within a bound, and the row has the verdict of the task or is untouched.

## Read side and streams

`Metrics.dfy`, `Duration.dfy`, `RepoPage.dfy`, `Hosts.dfy`, `Commits.dfy`, `Streams.dfy` and `LiveArtifact.dfy`
each compare a computation with an independent description of its result: the list of reports, a reader
for printed durations, the set of all jobs, the history of calls, the order in which pushes take the lock, and
the bytes of the source.  Where the code keeps its promise only in part, the exact condition is
proved and a run that breaks it is given (`Claims.ARunCanStartTwice`, `Commits.OvertakingBreaksLockStep`,
`LiveArtifact.LastAppendCanBeMissed`).

## Assumptions

* One driver process at a time works on a database; one message travels per body chunk.
* Build tokens are fresh: `token_for_job` never returns the same 32 random bytes twice.
* The clock does not go back.  Times are unbounded integers, so `now - 60_000` and `now - 1 day` do not wrap
  as they would within a day of the epoch.
* In `System.dfy` a client sends at most one final status.  `Sessions.StatusCarriesVerdict` and
  `Runner.ConversationShape` show that the runner of this repository does so.
* `host_preference` is a column of `runs`, and `metrics` is keyed by run, as the queries have it; the
  `create table` texts in `ci-lib-core/src/sql.rs:198-204` and `ci-lib-core/src/sql.rs:243-255` say otherwise.
* The comment above `duration_as_human_string` promises shorter strings than the code prints ("1m0s",
  "1.030s"); the model follows the code.

## Model

| member | source | states |
|---|---|---|
| ReaperSafety.ReaperExactness | ci-driver/src/main.rs:580-625 | Under every interleaving with clients being served: a run that was Started when this process began ends Invalid with "lost signal" iff it has no start time or one more than 60 s before the filter, and is else as found, as is every other old row; no run this process may activate is ever Invalid |
| ReaperSafety.FilteredThen | ci-driver/src/main.rs:601 | That moment is the clock of the state in which this process filtered what it had read |
| ReaperSafety.ReapMeetsAStartedRun | ci-lib-core/src/dbctx.rs:336-345 | The unconditional update meets the very row of the snapshot, still Started, with no client on it |
| ReaperSafety.InvAlways | ci-driver/src/main.rs:293-324 | A run is in the active map before its row says Started and never leaves it; this and the rest of the invariant hold in every reachable state |
| ReaperSafety.BootIsTheTableAsFound | ci-driver/src/main.rs:487-528 | The table the reaper is measured against is the one the process found when it began, and changes only with a new process |
| Lifecycle.RunsLiveAsIntended | ci-driver/src/main.rs:54-96 | While picks are disjoint: host, token, artifacts path and start time are set iff the run has left Pending, complete time and result iff it is Finished (0) or Error (1), times are in order, and the log of activations has each started run once |
| Lifecycle.StatesFollowTheirOrder | ci-driver/src/main.rs:147-196 | Every step leaves a run's state alone or moves it Pending, Started, then Finished, Error or Invalid |
| Lifecycle.NeverPendingAgain | ci-lib-core/src/dbctx.rs:312-345 | With picks of any kind and any tables to begin with, a run that has left Pending never returns |
| Lifecycle.ResultsMatchAlways | ci-driver/src/main.rs:182-196 | In every interleaving, whatever the picks: Finished has result 0 and Error result 1 |
| Lifecycle.StartsPastAlways | ci-driver/src/main.rs:57-60 | In every interleaving no start time, recorded or about to be, is in the future |
| Claims.AtMostOnceInEveryState | ci-driver/src/main.rs:533-574 | In every state of every interleaving from empty tables: no run can be activated twice before the pending query is next answered iff none was yet, no two clients hold one run, and none holds a run already activated |
| Claims.AtMostOnceExactly | ci-driver/src/main.rs:85-91 | The same of any state that satisfies the unconditional invariant and whose log has only runs there are |
| Claims.LogKnownAlways | ci-driver/src/main.rs:85-91 | Both hold in every interleaving |
| Claims.OneStartedOneHolds | ci-driver/src/main.rs:539-546 | From empty tables: picks disjoint and nothing activated twice, yet a client holds a run that another has started |
| Claims.ARunCanStartTwice | ci-driver/src/main.rs:539-546 | From empty tables, one push and two hosts lead to a run that is activated twice |
| Claims.CanHandOver | ci-driver/src/main.rs:54-96 | Whoever holds a run can have it activated without any other client moving |
| Placement.RunsGoWhereTheyMay | ci-driver/src/main.rs:283-291 | In every interleaving a run that carries host h had preference none or h, and its taker named no sources or the job's; it was the newest such pending run in tables that existed when the query was answered, or was made for h, for a job marked "all" of the last 86,400,000 ms that had no run on h in such tables |
| Placement.QueriesSawRealTables | ci-lib-core/src/dbctx.rs:472-490 | Those tables are the actual ones of some earlier moment |
| Alternates.AlternatesAreNotDuplicated | ci-driver/src/main.rs:553-561 | With at most one searching client per host, over failed hand-overs, restarts and differing accepted sources, a job has at most one alternate run for a host |
| Alternates.NoneMadeYet | ci-lib-core/src/sql.rs:282-286 | After an empty pending query the `not exists` query can only answer with a job that has no run made for this host, waiting or started |
| Alternates.OneAlternateExactly | ci-driver/src/main.rs:553-561 | In any state with the unconditional invariant, so in every reachable one: no job can have two runs for a host before the next choice iff none has now, no client is about to make one that was made since it chose, and no two clients are about to make the same |
| Alternates.ChosenAfterMade | ci-lib-core/src/sql.rs:282-286 | From empty tables: a client chooses a job whose run for its host another client has just made, as that run does not carry the host yet |
| Alternates.TwoClientsOneHost | ci-driver/src/main.rs:517-527 | From empty tables, two clients of one host that search at once give a job two runs for it |
| Attribution.TokensIdentifyRuns | ci-lib-core/src/dbctx.rs:143-170 | In every interleaving at most one run has a given token |
| Attribution.ArtifactsFollowAlways | ci-driver/src/main.rs:344-386 | With disjoint picks, an artifact reserved through a valid token is no older than its run's start |
| Attribution.ArtifactsAreTheRunsOwn | ci-lib-core/src/dbctx.rs:150-165 | With disjoint picks, an artifact belongs to the one run that has its token, and was asked for between that run's start and its timeout, 30 minutes unless set |
| Attribution.NoArtifactIsHidden | ci-web-server/src/main.rs:337-340 | So the page's filter by time against artifacts of previous runs is the identity on those of a run |
| Times.StartsAreWhenHeld | ci-driver/src/main.rs:57-60 | In every interleaving a recorded start is the clock of an earlier state in which the client of the row's host and token held the run and had not been offered it yet |
| Times.EndsAreWhenReported | ci-driver/src/main.rs:176-196 | In every interleaving a recorded completion is the clock of an earlier state in which a client was at work on the run |
| Progress.SearchGoesOn | ci-driver/src/main.rs:533-572 | Whatever the tables, the search of a client without a run always has a next step; in particular the pending query has a newest answer or none |
| Progress.HandOffGoesOn | ci-driver/src/main.rs:54-96 | Whoever has a run can be taken on to its report, and a client at work or done can leave |
| Progress.SweepGoesOn | ci-driver/src/main.rs:580-625 | The reaper has a step until its sweep is over, and each run reaped leaves one fewer |
| Progress.RequestsLetIn | ci-driver/src/main.rs:344-360 | An artifact request is let in iff its run has the token, a directory and a start no longer ago than its timeout, 1,800,000 ms unless set |
| Display.DisplayFollowsState | ci-lib-web/src/lib.rs:75-107 | For a row as the life of a run leaves it, each state has its one way of being shown, and the status and the run time on the page agree |
| Display.NeverUnderflows | ci-lib-web/src/lib.rs:75-107 | In every interleaving, shown at once or later: no unsigned subtraction underflows |
| Display.FinishedMeansPassed | ci-web-server/src/main.rs:286-305 | In every interleaving: the job page never says failed or unreported of a finished run, and shows output iff Error |
| Display.RestartedIsOngoing | ci-lib-web/src/lib.rs:78-86 | A run that says Started is shown as ongoing since its start, whatever older completion it has |
| Display.RunTimesMakeSense | ci-web-server/src/main.rs:282-305 | In every state reached with disjoint picks: no unsigned underflow, no "invalid data", "ongoing" iff Started, passed iff Finished, error and its output iff Error, server error iff Invalid |
| Database.DbCtx.NewJob | ci-lib-core/src/dbctx.rs:298-307 | Adds one job under the next id and changes nothing else |
| Database.DbCtx.NewRun | ci-lib-core/src/dbctx.rs:312-334 | Adds one Pending row with its preference and creation time and nothing else set, for any job id; tables stay well-formed if the job exists |
| Database.DbCtx.Start | ci-driver/src/main.rs:85-91 | Sets the five columns of the activating update in the one row |
| Database.DbCtx.ReapTask | ci-lib-core/src/dbctx.rs:336-345 | Marks the one row dead, whatever its state |
| Database.DbCtx.GetPendingRuns | ci-lib-core/src/dbctx.rs:472-490 | Lists just the pending runs without a preference or with this host's, newest first |
| Database.DbCtx.JobsNeedingTaskRunsForHost | ci-lib-core/src/dbctx.rs:492-517 | Lists just the jobs for all hosts of the last day that have no run on this host, each once |
| Database.DbCtx.GetActiveRuns | ci-lib-core/src/dbctx.rs:458-470 | Lists just the pending and started runs, each once, with their rows |
| Database.DbCtx.RunForToken | ci-lib-core/src/dbctx.rs:143-170 | Finds a run with the token if there is one; the token is invalid iff the run has no start time, and valid iff its timeout, or 1,800,000 ms, has not passed since |
| Database.DbCtx.RecentJobsFromRemote | ci-lib-core/src/dbctx.rs:435-456 | The first rows of all the remote's jobs in descending order of creation |
| Database.DbCtx.FindWork | ci-driver/src/main.rs:539-561 | One pass, in columns: the newest run that is Pending for this host or any and of a wanted job; only if there is none, a new run pinned to this host of a wanted job of the last day marked "all" without a run here; nothing only if there is neither |
| Store.AsTheColumnsSay | ci-lib-core/src/sql.rs:279-286 | The queries and the acceptance test select just the runs and jobs that the columns say |
| Database.FirstAcceptedIsNewest | ci-driver/src/main.rs:544-550 | The first accepted run of the list is the newest acceptable one there is |
| Driver.FindClientTask | ci-driver/src/main.rs:530-572 | Ends after at most 3010 pings; all passes before the last were empty, and the last found work, lost the client or passed the deadline |
| Driver.IdlePassesAreFew | ci-driver/src/main.rs:563-571 | The truncating deadline test cannot let a 3010th nap of at least 100 ms go by |
| Driver.GivesItsReason | ci-driver/src/main.rs:565-571 | The reason is the lost client if the ping failed, and else a deadline that is past by at least 301,000 ms |
| Driver.BoundIsMet | ci-driver/src/main.rs:563-571 | Exact naps and a client that stays give exactly 3010 passes |
| Driver.Submit | ci-driver/src/main.rs:293-324 | The run becomes active iff the client answers Started |
| Driver.ActivateRun | ci-driver/src/main.rs:54-96 | If the client acknowledges, the run is active and its row is Started with the time read before it was offered, its host, token and directory; else the tables and the active tasks are as they were |
| Driver.Serve | ci-driver/src/main.rs:530-578 | A client that acknowledges is given what the search found, and the run is activated for its host |
| Driver.DropActive | ci-driver/src/main.rs:583-589 | Removing active tasks by `swap_remove` in any order leaves just the rows that are not active |
| Driver.SwapRemoveRemoves | ci-driver/src/main.rs:585-589 | `swap_remove` of one of distinct rows removes that row and no other |
| Driver.OldTaskReaper | ci-driver/src/main.rs:580-625 | Undisturbed, a row becomes Invalid with "lost signal" iff it was Started, is not active, and has no start time or one more than 60 s ago; all else in it and all other rows are as they were |
| Drain.IdleExactly | ci-driver/src/main.rs:539-561 | A client finds nothing iff there is no acceptable pending run and no acceptable recent job lacking a run on its host |
| Drain.ServingShrinksBacklog | ci-driver/src/main.rs:530-578 | Each client given work leaves strictly less of it, also as time passes |
| Drain.OthersAddNoWork | ci-driver/src/main.rs:85-91 | Reports, reaping, and runs started on or made for other hosts add nothing to what a host could be given |
| Drain.HostDrains | ci-driver/src/main.rs:530-578 | After n clients given work, at least n less of it is left, whatever happens elsewhere between their visits |
| Drain.DrainedHostRanEverything | ci-lib-core/src/dbctx.rs:492-517 | Within as many visits as there was work one finds nothing, and then the host has a run of every acceptable recent job for all hosts |
| Runner.RemoteServerRunner.WaitForWork | ci-runner/src/main.rs:496-525 | Answers each ping with one pong, and what follows the pings decides: a task is returned, the end is no work, anything else an error |
| Runner.RunningJob.Run | ci-runner/src/main.rs:338-419 | Sends Started, the reports of the operations up to the first failure, and one final status |
| Runner.RunningJob.CloneRemote | ci-runner/src/main.rs:240-278 | Succeeds iff both the clone and the checkout did |
| Runner.RunningJob.RunOne | ci-runner/src/main.rs:455-469 | Sends what the operation announces and fails with its text iff it fails |
| Runner.RunningJob.RunGoodfile | ci-runner/src/main.rs:184-204 | Stops at the first operation that fails and returns its text |
| Runner.RunningJob.RunBuild | ci-runner/src/main.rs:363-389 | Picks the goodfile, the default one or the complaint that it is inaccessible, and returns the reason of the task's failure if any |
| Runner.ConversationShape | ci-runner/src/main.rs:338-419 | Started comes first, the only status last, and only commands and metrics in between |
| ClientJobs.ClientJob.Run | ci-driver/src/main.rs:131-217 | The loop folds the handling of each message over everything received, and stops at a misdirected request |
| ClientJobs.StatusMeansVerdict | ci-driver/src/main.rs:147-170 | The final status the runner sends is read as the verdict its task deserves |
| ClientJobs.RecordAgreesWithTask | ci-driver/src/main.rs:131-217 | After any prefix of a conversation: row and notifiers untouched before the status, both with the verdict after it, metrics stored, nothing unhandled |
| ClientJobs.OutcomeAgreesWithTask | ci-driver/src/main.rs:176-196 | The row ends (Finished, 0, "success") iff checkout and every operation succeeded, else (Error, 1, text), the text being "bad_ref", "inaccessible goodfile" or the words of the first operation that failed; it is complete as of the last message, and notifiers are told the same once |
| ClientJobs.MetricsAgreeWithTask | ci-runner/src/lua/mod.rs:190-199 | The run's metrics are those of the operations up to the first that failed, by name and value, in order |
| ClientJobs.LastStatusDecides | ci-driver/src/main.rs:147-196 | Of any client: each status is told once as it reads, and the row has the last one's verdict and time |
| ClientJobs.MisdirectedStops | ci-driver/src/main.rs:143-146 | A request for a task ends the job, and nothing sent after it has any effect |
| Sessions.BothEndsConform | ci-driver/src/main.rs:234-248 | In every reachable state neither end has met a message out of place, a ping is outstanding iff the driver waits for its answer and then only one, the channel has room, and the runner is at the task handed over |
| Sessions.DriverNotices | ci-driver/src/main.rs:234-248 | Whoever sends it: after a ping only a pong, after a task only Started lets the driver go on; later a task request ends the job, and only pings, pongs, tasks and starts are unhandled |
| Sessions.RunnerNotices | ci-runner/src/main.rs:496-525 | Whoever sends it: the runner goes on only with a good response, the greeting, then pings, and the task that it then carries out |
| Sessions.NeverStuck | ci-runner/src/main.rs:496-525 | While an end is up, some step other than dying is possible |
| Sessions.HandedFor | ci-driver/src/main.rs:293-324 | From a hand-over on, the number of steps left is bounded, deaths and failures included |
| Sessions.HandedSessionsEnd | ci-runner/src/main.rs:598-676 | After a hand-over every step of either end brings the session closer to its end |
| Sessions.RowHasTheVerdictOrIsUntouched | ci-driver/src/main.rs:131-217 | At every moment the row is as handed over or has the verdict of the task, and notifiers agree; if nobody died, it has the verdict when the driver stops |
| Sessions.StatusCarriesVerdict | ci-driver/src/main.rs:147-170 | The status the driver is about to read says the verdict of the task, and none was read before |
| Verdicts.RunsEndWithTheirVerdict | ci-driver/src/main.rs:131-196 | In the interleaved driver, with disjoint picks and such clients: an ended run is Finished iff the task given its token succeeded throughout, else Error with "bad_ref", "inaccessible goodfile" or the words of its first operation that failed |
| Metrics.MetricStore.InsertMetric | ci-lib-core/src/dbctx.rs:53-62 | One upsert by run and name |
| Metrics.MetricStore.MetricsForRun | ci-lib-core/src/dbctx.rs:347-360 | The rows of the run, in id order |
| Metrics.MetricStore.SummarizeJobMetrics | ci-web-server/src/main.rs:412-449 | The list of names merges the runs' lists, and the columns follow the runs, each beside the description of its host |
| Metrics.SummaryColumns | ci-web-server/src/main.rs:425-449 | Each run's column has just the names it reported with the values last reported, and stands beside its own host's name and frequency |
| Metrics.KnownCpus | ci-web-server/src/main.rs:899-908 | Exactly the five known models have names of their own |
| Metrics.EachRunListsItsReports | ci-lib-core/src/dbctx.rs:347-360 | After any reports, a run lists each name it reported once, in first-report order, with the last value |
| Metrics.IdsAscend | ci-lib-core/src/sql.rs:317-318 | Rows stand in the order of their ids, so listing in place is listing by id |
| Metrics.SummaryNames | ci-web-server/src/main.rs:422-434 | The summary's names are the union over the runs, without duplicates, beginning with the first run's list |
| Metrics.SummaryColumn | ci-web-server/src/main.rs:429-436 | A column maps just the names its run reported to the values last reported |
| Duration.ReadsBack | ci-lib-web/src/lib.rs:14-44 | Reading a printed duration, digits after the point as tenths, hundredths and thousandths, gives it floored to the minute, to the second, or exactly, as hours, minutes or only seconds are shown |
| Duration.LossIsBounded | ci-lib-web/src/lib.rs:14-44 | Below a minute nothing is lost, above less than a sixtieth |
| Duration.ReadingIsMonotone | ci-lib-web/src/lib.rs:14-44 | A longer duration never reads as a shorter one |
| Duration.SameStringExactly | ci-lib-web/src/lib.rs:14-44 | Two durations print alike iff they agree in what is printed |
| RepoPage.RepoSummary | ci-web-server/src/main.rs:557-607 | Of all jobs of the repository's remotes the page has min(asked, all) if 10 to 100 were asked for, min(10, all) if none or fewer, min(100, all) if more; newest first, none twice, and no job left out is newer than one shown |
| RepoPage.NewestOfTheNewest | ci-web-server/src/main.rs:582-586 | The newest of what was gathered from each remote are the newest of all |
| RepoPage.GatheredFromBoth | ci-web-server/src/main.rs:582-585 | What is left out of one remote's list stays outdone when the lists are put together |
| Hosts.HostTable.IdForHost | ci-lib-core/src/dbctx.rs:564-619 | Returns the id of the row with all twelve columns, and fails iff a stored row agrees in all but the maximum frequency; rows stored are never changed |
| Hosts.FailsExactly | ci-lib-core/src/sql.rs:257-271 | Over any history a call fails iff the first call that agreed with it in all but the maximum frequency had another one, and then changes nothing |
| Hosts.IdsIdentifyHosts | ci-lib-core/src/dbctx.rs:564-619 | Any two successful calls have equal ids iff their descriptions are equal |
| Hosts.OutcomeIsStable | ci-lib-core/src/dbctx.rs:564-619 | The same description gets the same result for ever |
| Commits.PushDb.NewCommit | ci-lib-core/src/dbctx.rs:64-77 | Records a new sha under the next id; for a known one it panics with the lock held, for good |
| Commits.PushDb.NewJob | ci-lib-core/src/dbctx.rs:287-310 | Returns the ids of the commit and the job just added |
| Commits.PushDb.ProcessPush | ci-web-server/src/main.rs:159-194 | A push by itself adds one commit, one job and one run for a new sha and nothing for a known one |
| Commits.OneRunPerSha | ci-web-server/src/main.rs:162-194 | However pushes interleave and repeat: never two commits of a sha, two jobs of a commit or two runs of a job, and exactly one of each once none is on its way |
| Commits.PoisonMeansOverlap | ci-lib-core/src/dbctx.rs:64-77 | The failing insertion is only reached when two pushes had found the same sha to be new |
| Commits.OverlapIsFatal | ci-lib-core/src/dbctx.rs:64-77 | Of two such pushes one at least never gets past its insertion |
| Commits.LockStepExactly | ci-lib-core/src/dbctx.rs:287-310 | Job ids equal commit ids iff jobs were made in the order of their commits |
| Commits.RightInLockStep | ci-lib-core/src/dbctx.rs:131-141 | `job_for_commit` gives the right job for every sha that has one iff ids are in lock-step |
| Commits.OvertakingBreaksLockStep | ci-lib-core/src/dbctx.rs:131-141 | Two pushes, one overtaking the other, leave each sha with the other's job |
| Commits.SerialPushes | ci-web-server/src/main.rs:159-194 | After any pushes one after another, ids agree and each sha pushed has one commit, one job and one run; and these tables are reached by an interleaving |
| Commits.PushIsReachable | ci-web-server/src/main.rs:159-194 | From any state with no push on its way, a push by itself is a run of the interleaved machine |
| Streams.ForwardData | ci-lib-native/src/io.rs:142-156 | For any sizes of reads and writes: Ok means that all bytes got across, an error that a prefix of them did; into a sink that never fails nothing that was read is lost |
| Streams.StoreAll | ci-lib-native/src/io.rs:118-139 | Ok means that the whole body arrived and is in the file, an error that a prefix of it is |
| Streams.CaptureOutput | ci-lib-native/src/io.rs:10-32 | Forwarding into the in-memory collector and taking its buffer: for any sizes of pieces, what is taken and what is left unread are all there was, and Ok means it is all taken |
| LiveArtifact.OutputIsAPrefix | ci-web-server/src/main.rs:514-544 | With a concurrent writer, what the browser was sent is always a prefix of the file |
| LiveArtifact.CompleteExactly | ci-web-server/src/main.rs:526-544 | When the loop ends the artifact is complete, and the browser has the whole file iff its pipe held and nothing was appended after the end was last found |
| LiveArtifact.ReaderFinishes | ci-web-server/src/main.rs:526-542 | Once the artifact is complete the loop always has a step and each but a failed read brings it closer to its end |
| LiveArtifact.LastAppendCanBeMissed | ci-web-server/src/main.rs:526-544 | An append during the last nap is missed |

## Left out

- Lifecycle.RunsLiveAsIntended: needs disjoint picks, because the code does not claim runs; `Claims` has the exact condition for at-most-once activation and runs that break it.
- Alternates.AlternatesAreNotDuplicated: needs one searching client per host, which the code does not enforce; the exact condition and runs that break it are given beside it.
- Driver.FindClientTask: others write only during its naps here; `System` has the finer interleaving, without the deadline.
- Driver.ActivateRun: error texts are without the quotes that debug formatting adds; a directory for artifacts can always be had.
- Driver.OldTaskReaper: the loop itself is stated for tables nobody else writes to; `ReaperSafety` has the interleaved statement.
- Attribution.NoArtifactIsHidden: about the filter by time only; `LAST_ARTIFACTS_FOR_RUN` lists no artifact whose name has neither "(stdout)" nor "(stderr)" in it, and the page does hide those.  Also without the limit of 65535 rows in `artifacts_for_run` and without the artifacts directory's name, which stands as the run's number.
- RepoPage.RepoSummary: which of several jobs created in the same millisecond is shown is not stated, as the query leaves it open.
- Metrics.SummaryColumns: the list of runs (`RUNS_FOR_JOB`) is arbitrary, since SQLite may pick any row for its bare columns.
- Commits.OneRunPerSha: pushes that die between two critical sections for other reasons than the lock are not modelled.
- HTTP, TLS, JSON, webhook signatures, GitHub and mail: only the verdict handed to notifiers is kept, not whether they could be reached.
- HTML text, the fold over most recent runs in `build_repo_index`, `StepTracker` and the conversions from numbers to states: easy.
- `ci-ctl`: configuration and commands; its `Rerun` takes job ids that nobody checks.
- The Lua interpreter, `git` and other processes: an operation is its announcements and whether it succeeds; forwarding of a command's output is not joined with its exit.
- Collection of host information and the choice of `ci-wasm-frontend`.
- `find_id_like_host`, commit names, remotes and repositories as tables.

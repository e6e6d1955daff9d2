/** What the web pages show of a run, and why the odd cases in their code do not arise. */
module Display {
  import opened Common
  import opened Store
  import opened System
  import Lifecycle

  /** The results of `display_run_time`; `Underflow` is where its unsigned subtraction would wrap. */
  datatype RunTime = NotYetRun | Took(ms: nat) | Ongoing(ms: nat) | NotApplicable | InvalidData | Underflow

  function Since(now: nat, start: nat): RunTime {
    if now < start then Underflow else Ongoing(now - start)
  }

  function DisplayRunTime(row: Run, now: nat): RunTime {
    match (row.startTime, row.completeTime)
    case (Some(start), Some(complete)) =>
      if complete < start then
        if row.state == Started then Since(now, start) else InvalidData
      else Took(complete - start)
    case (Some(start), None) => if row.state != Invalid then Since(now, start) else NotApplicable
    case (None, _) => NotYetRun
  }

  /** The status classification of the job page. */
  datatype JobStatus = InProgress | Passed | Failed | Unreported | Errored | ServerError

  function Classify(row: Run): JobStatus {
    match row.state
    case Pending => InProgress
    case Started => InProgress
    case Finished =>
      (match row.buildResult
       case Some(result) => if result == 0 then Passed else Failed
       case None => Unreported)
    case Error => Errored
    case Invalid => ServerError
  }

  predicate ShowsOutput(row: Run) {
    (row.state == Finished && row.buildResult == Some(1)) || row.state == Error
  }

  /** For a row as the life of a run leaves it, each state has one way of being shown. */
  lemma DisplayFollowsState(row: Run, r: nat, now: nat)
    requires Lifecycle.RowOk(row, r) && Lifecycle.Timely(row, now)
    ensures match row.state
            case Pending => DisplayRunTime(row, now) == NotYetRun
            case Started => DisplayRunTime(row, now) == Ongoing(now - row.startTime.value)
            case Invalid => DisplayRunTime(row, now) == NotApplicable
            case _ => DisplayRunTime(row, now) == Took(row.completeTime.value - row.startTime.value)
    ensures Classify(row) == Passed <==> row.state == Finished
    ensures Classify(row) == Errored <==> row.state == Error
    ensures Classify(row) == InProgress <==> DisplayRunTime(row, now).NotYetRun? || DisplayRunTime(row, now).Ongoing?
    ensures Classify(row) == ServerError <==> DisplayRunTime(row, now).NotApplicable?
    ensures Classify(row) != Failed && Classify(row) != Unreported
    ensures ShowsOutput(row) <==> row.state == Error
  {
  }

  /** Of any row that says Started, whatever else it says: an older completion is not taken for this one's. */
  lemma RestartedIsOngoing(row: Run, now: nat)
    requires row.state == Started && row.startTime.Some? && row.startTime.value <= now
    requires row.completeTime.Some? ==> row.completeTime.value < row.startTime.value
    ensures DisplayRunTime(row, now) == Ongoing(now - row.startTime.value)
  {
  }

  /** In every interleaving, whoever ran what: no time is subtracted from an earlier one. */
  lemma NeverUnderflows(tr: seq<Sys>, i: nat, r: nat, now: nat)
    requires Behaviour(tr) && Init(tr[0]) && i < |tr| && r in tr[i].db.runs && tr[i].now <= now
    ensures DisplayRunTime(tr[i].db.runs[r], now) != Underflow
  {
    Lifecycle.StartsPastAlways(tr, i);
  }

  /** Nor does the job page ever show a finished run as failed or unreported: a failure is an error. */
  lemma FinishedMeansPassed(tr: seq<Sys>, i: nat, r: nat)
    requires Behaviour(tr) && Init(tr[0]) && i < |tr| && r in tr[i].db.runs
    ensures Classify(tr[i].db.runs[r]) != Failed && Classify(tr[i].db.runs[r]) != Unreported
    ensures Classify(tr[i].db.runs[r]) == Passed <==> tr[i].db.runs[r].state == Finished
    ensures ShowsOutput(tr[i].db.runs[r]) <==> tr[i].db.runs[r].state == Error
  {
    Lifecycle.ResultsMatchAlways(tr, i);
  }

  /** In every state reached with disjoint picks, shown at that moment or later, run times make sense. */
  lemma RunTimesMakeSense(tr: seq<Sys>, i: nat, r: nat, now: nat)
    requires Behaviour(tr) && Init(tr[0]) && i < |tr| && r in tr[i].db.runs && tr[i].now <= now
    requires forall k :: 0 <= k < i ==> Lifecycle.DisjointPicks(tr[k].cands)
    ensures DisplayRunTime(tr[i].db.runs[r], now) != Underflow
    ensures DisplayRunTime(tr[i].db.runs[r], now) != InvalidData
    ensures DisplayRunTime(tr[i].db.runs[r], now).Ongoing? <==> tr[i].db.runs[r].state == Started
    ensures Classify(tr[i].db.runs[r]) == Passed <==> tr[i].db.runs[r].state == Finished
    ensures Classify(tr[i].db.runs[r]) == Errored <==> tr[i].db.runs[r].state == Error
    ensures Classify(tr[i].db.runs[r]) == ServerError <==> tr[i].db.runs[r].state == Invalid
    ensures ShowsOutput(tr[i].db.runs[r]) <==> tr[i].db.runs[r].state == Error
  {
    Lifecycle.RunsLiveAsIntended(tr, i);
    DisplayFollowsState(tr[i].db.runs[r], r, now);
  }
}

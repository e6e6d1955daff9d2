/** The driver's end of a running task: what each message from the runner does to the run's record. */
module ClientJobs {
  import opened Common
  import opened Store
  import opened Protocol
  import Metrics
  import Runner

  /**
   All that a client job changes: the row of its run, the metrics, what notifiers were told, and how
   many messages were logged as unhandled.  `open` is false once the job stopped listening because it
   was sent a task request.
   */
  datatype Record = Record(run: nat, row: Run, metrics: Metrics.Table, told: seq<Outcome>, unhandled: nat, open: bool)

  /** Only the status "pass" is a pass; an interruption is described, or else named by its status. */
  function OutcomeOf(info: TaskInfo): Outcome {
    match info
    case TaskFinished(status) => if status == "pass" then Outcome(true, "success") else Outcome(false, status)
    case TaskInterrupted(status, description) => Outcome(false, description.GetOr(status))
  }

  function Handle(rec: Record, m: ClientProto, now: nat): Record {
    match m
    case NewTaskPlease(_, _) => rec.(open := false)
    case TaskStatus(info) => rec.(told := rec.told + [OutcomeOf(info)], row := Completed(rec.row, now, OutcomeOf(info)))
    case Metric(name, value) => rec.(metrics := Metrics.Upsert(rec.metrics, Metrics.Report(rec.run, name, value)))
    case ArtifactCreate => rec
    case Command(_) => rec
    case _ => rec.(unhandled := rec.unhandled + 1)
  }

  /** A message and the time at which its update, if any, reads the clock. */
  datatype Arrival = Arrival(m: ClientProto, at: nat)

  function HandleAll(rec: Record, arrivals: seq<Arrival>): Record {
    if arrivals == [] then rec
    else
      var before := HandleAll(rec, arrivals[..|arrivals| - 1]);
      if before.open then Handle(before, arrivals[|arrivals| - 1].m, arrivals[|arrivals| - 1].at) else before
  }

  function Messages(arrivals: seq<Arrival>): (ms: seq<ClientProto>)
    ensures |ms| == |arrivals| && forall i :: 0 <= i < |ms| ==> ms[i] == arrivals[i].m
  {
    if arrivals == [] then [] else Messages(arrivals[..|arrivals| - 1]) + [arrivals[|arrivals| - 1].m]
  }

  /** The metric operations among the first operations of a goodfile, as reports of the run. */
  function MetricReports(ms: seq<ClientProto>, run: nat): seq<Metrics.Report> {
    if ms == [] then []
    else
      var before, m := MetricReports(ms[..|ms| - 1], run), ms[|ms| - 1];
      if m.Metric? then before + [Metrics.Report(run, m.name, m.value)] else before
  }

  function StoreFrom(t: Metrics.Table, reports: seq<Metrics.Report>): Metrics.Table {
    if reports == [] then t else Metrics.Upsert(StoreFrom(t, reports[..|reports| - 1]), reports[|reports| - 1])
  }

  /** The verdict a task deserves: a pass exactly when nothing failed. */
  function Verdict(w: Runner.World): Outcome {
    match Runner.FailureOf(w)
    case None => Outcome(true, "success")
    case Some(reason) => Outcome(false, reason)
  }

  /** The runner's final status is read as the verdict of its task. */
  lemma StatusMeansVerdict(w: Runner.World)
    ensures OutcomeOf(Runner.FinalStatus(w)) == Verdict(w)
  {
  }

  /** Reports touch nothing but the metrics. */
  lemma {:induction false} ReportsOnlyStoreMetrics(rec: Record, arrivals: seq<Arrival>)
    requires rec.open && forall i :: 0 <= i < |arrivals| ==> Runner.IsReport(arrivals[i].m)
    ensures HandleAll(rec, arrivals) == rec.(metrics := StoreFrom(rec.metrics, MetricReports(Messages(arrivals), rec.run)))
  {
    if arrivals != [] {
      var n := |arrivals| - 1;
      ReportsOnlyStoreMetrics(rec, arrivals[..n]);
      var reports := MetricReports(Messages(arrivals[..n]), rec.run);
      assert Messages(arrivals)[..n] == Messages(arrivals[..n]);
      if arrivals[n].m.Metric? {
        var r := Metrics.Report(rec.run, arrivals[n].m.name, arrivals[n].m.value);
        assert (reports + [r])[..|reports|] == reports;
      }
    }
  }

  /** What follows Started is all reports, but for the final status. */
  lemma {:induction false} ArrivalsOfConversation(arrivals: seq<Arrival>, w: Runner.World)
    requires [ClientProto.Started] + Messages(arrivals) <= Runner.Conversation(w)
    ensures var n := |Runner.Conversation(w)| - 1;
            && |arrivals| <= n
            && (forall i :: 0 <= i < |arrivals| && i < n - 1 ==> Runner.IsReport(arrivals[i].m))
            && (|arrivals| == n ==> n > 0 && arrivals[n - 1].m == TaskStatus(Runner.FinalStatus(w)))
  {
    Runner.ConversationShape(w);
    var c := Runner.Conversation(w);
    var sofar := [ClientProto.Started] + Messages(arrivals);
    forall i | 0 <= i < |arrivals|
      ensures arrivals[i].m == c[i + 1]
    {
      assert sofar[i + 1] == c[i + 1];
    }
  }

  /** The final status after reports only. */
  lemma StatusAfterReports(rec: Record, arrivals: seq<Arrival>, w: Runner.World)
    requires rec.open && arrivals != []
    requires forall i :: 0 <= i < |arrivals| - 1 ==> Runner.IsReport(arrivals[i].m)
    requires arrivals[|arrivals| - 1].m == TaskStatus(Runner.FinalStatus(w))
    ensures HandleAll(rec, arrivals) ==
            rec.(metrics := StoreFrom(rec.metrics, MetricReports(Messages(arrivals), rec.run)),
                 row := Completed(rec.row, arrivals[|arrivals| - 1].at, Verdict(w)),
                 told := rec.told + [Verdict(w)])
  {
    var before := arrivals[..|arrivals| - 1];
    StatusMeansVerdict(w);
    ReportsOnlyStoreMetrics(rec, before);
    assert Messages(arrivals)[..|before|] == Messages(before);
  }

  /**
   Up to any point of a conversation: before the final status the row is as it was and nobody has been
   told anything; after it, row and notifiers have the verdict of the task, once.  Nothing is unhandled.
   */
  lemma RecordAgreesWithTask(rec: Record, arrivals: seq<Arrival>, w: Runner.World)
    requires rec.open && [ClientProto.Started] + Messages(arrivals) <= Runner.Conversation(w)
    ensures var c, after := Runner.Conversation(w), HandleAll(rec, arrivals);
            && after.open && after.unhandled == rec.unhandled
            && after.metrics == StoreFrom(rec.metrics, MetricReports(Messages(arrivals), rec.run))
            && if |arrivals| + 1 == |c| then
                 after.row == Completed(rec.row, arrivals[|arrivals| - 1].at, Verdict(w)) && after.told == rec.told + [Verdict(w)]
               else
                 after.row == rec.row && after.told == rec.told
  {
    ArrivalsOfConversation(arrivals, w);
    if |arrivals| + 1 == |Runner.Conversation(w)| {
      StatusAfterReports(rec, arrivals, w);
    } else {
      ReportsOnlyStoreMetrics(rec, arrivals);
    }
  }

  predicate EverythingSucceeds(w: Runner.World) {
    Runner.CheckoutOk(w) && !w.goodfile.Inaccessible? && forall op :: op in Runner.OpsOf(w.goodfile) ==> !Runner.Fails(op)
  }

  /** A task passes exactly if checkout and every operation succeed. */
  lemma PassMeansSuccess(w: Runner.World)
    ensures Verdict(w).pass <==> EverythingSucceeds(w)
    ensures Verdict(w).pass <==> Runner.FailureOf(w).None?
  {
    var ops := Runner.OpsOf(w.goodfile);
    assert Runner.FirstFailure(ops) == |ops| <==> forall op :: op in ops ==> !Runner.Fails(op);
  }

  /**
   End to end: once the whole conversation has arrived, the row is a finished pass exactly when checkout
   and every operation succeeded, and otherwise an error that explains itself; it is complete as of the
   last message, nothing else in it has changed, and the notifiers were told the same, once.
   */
  lemma OutcomeAgreesWithTask(rec: Record, arrivals: seq<Arrival>, w: Runner.World)
    requires rec.open && rec.told == [] && [ClientProto.Started] + Messages(arrivals) == Runner.Conversation(w)
    ensures var after := HandleAll(rec, arrivals);
            && (EverythingSucceeds(w) <==> after.row.state == RunState.Finished)
            && (EverythingSucceeds(w) ==> after.row.buildResult == Some(0) && after.row.finalStatus == Some("success"))
            && (!EverythingSucceeds(w) ==>
                  && after.row.state == RunState.Error && after.row.buildResult == Some(1)
                  && Runner.FailureOf(w).Some? && after.row.finalStatus == Runner.FailureOf(w)
                  && Explains(w, after.row.finalStatus.value))
            && after.row == rec.row.(completeTime := Some(arrivals[|arrivals| - 1].at), state := after.row.state,
                                     buildResult := after.row.buildResult, finalStatus := after.row.finalStatus)
            && after.told == [Outcome(EverythingSucceeds(w), after.row.finalStatus.value)]
  {
    RecordAgreesWithTask(rec, arrivals, w);
    PassMeansSuccess(w);
    if !EverythingSucceeds(w) {
      ReasonExplains(w);
    }
  }

  /** The text says what went wrong: the checkout, the goodfile, or the first operation that failed, in its own words. */
  ghost predicate Explains(w: Runner.World, text: string) {
    if w.clone != Runner.Exited(Some(0)) || w.checkout != Runner.Exited(Some(0)) then
      text == "bad_ref"
    else
      match w.goodfile
      case Inaccessible => text == "inaccessible goodfile"
      case Present(ops) => exists k :: Runner.FailsFirst(ops, k) && text == ops[k].error
      case Absent(ops) => exists k :: Runner.FailsFirst(ops, k) && text == ops[k].error
  }

  lemma ReasonExplains(w: Runner.World)
    requires !EverythingSucceeds(w)
    ensures !Verdict(w).pass && Explains(w, Verdict(w).text)
  {
    PassMeansSuccess(w);
    if Runner.CheckoutOk(w) && !w.goodfile.Inaccessible? {
      assert Runner.FailsFirst(Runner.OpsOf(w.goodfile), Runner.FirstFailure(Runner.OpsOf(w.goodfile)));
    }
  }

  /** The metrics of the operations that were carried out, as reports of the run. */
  function OpReports(ops: seq<Runner.Op>, run: nat): seq<Metrics.Report> {
    if ops == [] then []
    else
      var before, op := OpReports(ops[..|ops| - 1], run), ops[|ops| - 1];
      if op.SendMetric? then before + [Metrics.Report(run, op.name, op.value)] else before
  }

  lemma {:induction false} ReportsOfAppended(a: seq<ClientProto>, b: seq<ClientProto>, run: nat)
    ensures MetricReports(a + b, run) == MetricReports(a, run) + MetricReports(b, run)
  {
    if b == [] {
      assert a + b == a;
    } else {
      ReportsOfAppended(a, b[..|b| - 1], run);
      assert (a + b)[..|a + b| - 1] == a + b[..|b| - 1];
    }
  }

  /** An operation's messages report its metric, if it is one, and nothing else. */
  lemma ReportsOfOp(op: Runner.Op, run: nat)
    ensures MetricReports(Runner.Messages(op), run) == if op.SendMetric? then [Metrics.Report(run, op.name, op.value)] else []
  {
    var ms := Runner.Messages(op);
    if |ms| == 2 {
      assert ms[..1] == [ms[0]];
      assert MetricReports(ms[..1], run) == MetricReports([], run);
    } else if |ms| == 1 {
      assert ms[..0] == [];
    }
  }

  lemma {:induction false} ReportsOfOps(ops: seq<Runner.Op>, run: nat)
    ensures MetricReports(Runner.AllMessages(ops), run) == OpReports(ops, run)
  {
    if ops != [] {
      var before, op := ops[..|ops| - 1], ops[|ops| - 1];
      ReportsOfOps(before, run);
      ReportsOfAppended(Runner.AllMessages(before), Runner.Messages(op), run);
      ReportsOfOp(op, run);
    }
  }

  /**
   And the metrics stored for the run are those of the operations up to the first that failed, in order:
   after a failed checkout there are none.
   */
  lemma MetricsAgreeWithTask(rec: Record, arrivals: seq<Arrival>, w: Runner.World)
    requires rec.open && [ClientProto.Started] + Messages(arrivals) == Runner.Conversation(w)
    ensures HandleAll(rec, arrivals).metrics ==
            StoreFrom(rec.metrics, if Runner.CheckoutOk(w) then OpReports(Runner.Executed(Runner.OpsOf(w.goodfile)), rec.run) else [])
  {
    RecordAgreesWithTask(rec, arrivals, w);
    var last := [TaskStatus(Runner.FinalStatus(w))];
    assert Messages(arrivals) == Runner.Conversation(w)[1..] == Runner.Reports(w) + last;
    ReportsOfAppended(Runner.Reports(w), last, rec.run);
    assert last[..0] == [];
    assert MetricReports(last, rec.run) == [];
    if Runner.CheckoutOk(w) {
      ReportsOfOps(Runner.Executed(Runner.OpsOf(w.goodfile)), rec.run);
    }
  }

  // ---- Whatever a client sends ----

  /** How a status is to be read, by whoever sent it. */
  ghost predicate Reads(info: TaskInfo, outcome: Outcome) {
    && (outcome.pass <==> info == TaskFinished("pass"))
    && (outcome.pass ==> outcome.text == "success")
    && (!outcome.pass && info.TaskFinished? ==> outcome.text == info.status)
    && (info.TaskInterrupted? ==> outcome.text == if info.description.Some? then info.description.value else info.status)
  }

  /** The statuses among some arrivals. */
  function Statuses(arrivals: seq<Arrival>): seq<Arrival> {
    if arrivals == [] then []
    else Statuses(arrivals[..|arrivals| - 1]) + (if arrivals[|arrivals| - 1].m.TaskStatus? then [arrivals[|arrivals| - 1]] else [])
  }

  /**
   Of any client that asks for no task in between: the notifiers are told of each status, and the row is
   as it was until the first and has the last one's verdict and time from then on.
   */
  lemma {:induction false} LastStatusDecides(rec: Record, arrivals: seq<Arrival>)
    requires rec.open && rec.told == [] && forall i :: 0 <= i < |arrivals| ==> !arrivals[i].m.NewTaskPlease?
    ensures var after, said := HandleAll(rec, arrivals), Statuses(arrivals);
            && after.open && |after.told| == |said|
            && (forall i :: 0 <= i < |said| ==> said[i].m.TaskStatus? && Reads(said[i].m.taskInfo, after.told[i]))
            && (said == [] ==> after.row == rec.row)
            && (said != [] ==>
                  var last, text := after.told[|said| - 1], after.row.finalStatus;
                  && text == Some(last.text)
                  && after.row == rec.row.(completeTime := Some(said[|said| - 1].at), finalStatus := text,
                                           state := if last.pass then RunState.Finished else RunState.Error,
                                           buildResult := if last.pass then Some(0) else Some(1)))
  {
    if arrivals != [] {
      LastStatusDecides(rec, arrivals[..|arrivals| - 1]);
    }
  }

  /** `ClientJob`: one run being carried out by one client. */
  class ClientJob {
    var rec: Record

    constructor (rec: Record)
      ensures this.rec == rec
    {
      this.rec := rec;
    }

    /** `ClientJob::run` on everything the client sends before it hangs up. */
    method Run(inbox: seq<Arrival>)
      requires rec.open
      modifies this
      ensures rec == HandleAll(old(rec), inbox)
    {
      var i := 0;
      while i < |inbox|
        invariant 0 <= i <= |inbox| && rec.open
        invariant rec == HandleAll(old(rec), inbox[..i])
      {
        var m, now := inbox[i].m, inbox[i].at;
        assert inbox[..i + 1][..i] == inbox[..i];
        match m {
          case NewTaskPlease(_, _) =>
            rec := rec.(open := false);
            ClosedStaysClosed(old(rec), inbox, i + 1);
            return;
          case TaskStatus(info) =>
            var result: Result<string>;
            var state: RunState;
            match info {
              case TaskFinished(status) =>
                if status == "pass" {
                  result, state := Ok("success"), RunState.Finished;
                } else {
                  result, state := Err(status), RunState.Error;
                }
              case TaskInterrupted(status, description) =>
                result, state := Err(description.GetOr(status)), RunState.Error;
            }
            var buildResult := if result.Ok? then 0 else 1;
            var text := match result case Ok(text) => text case Err(text) => text;
            rec := rec.(told := rec.told + [Outcome(result.Ok?, text)]);
            rec := rec.(row := rec.row.(completeTime := Some(now), state := state, buildResult := Some(buildResult), finalStatus := Some(text)));
          case ArtifactCreate =>
          case Metric(name, value) =>
            rec := rec.(metrics := Metrics.Upsert(rec.metrics, Metrics.Report(rec.run, name, value)));
          case Command(_) =>
          case _ =>
            rec := rec.(unhandled := rec.unhandled + 1);
        }
        i := i + 1;
      }
      assert inbox[..i] == inbox;
    }
  }

  lemma {:induction false} ClosedStaysClosed(rec: Record, inbox: seq<Arrival>, i: nat)
    requires i <= |inbox| && !HandleAll(rec, inbox[..i]).open
    ensures HandleAll(rec, inbox) == HandleAll(rec, inbox[..i])
    decreases |inbox|
  {
    if i == |inbox| {
      assert inbox[..i] == inbox;
    } else {
      var n := |inbox| - 1;
      assert inbox[..n][..i] == inbox[..i];
      ClosedStaysClosed(rec, inbox[..n], i);
    }
  }

  /** A request for a task, where none is due, ends the job: nothing sent after it has any effect. */
  lemma MisdirectedStops(rec: Record, inbox: seq<Arrival>, k: nat)
    requires rec.open && k < |inbox| && inbox[k].m.NewTaskPlease? && HandleAll(rec, inbox[..k]).open
    ensures HandleAll(rec, inbox) == HandleAll(rec, inbox[..k]).(open := false)
  {
    assert inbox[..k + 1][..k] == inbox[..k];
    ClosedStaysClosed(rec, inbox, k + 1);
  }
}

/**
 A runner carrying out one task.  A goodfile is a sequence of operations with the result each will
 have; the interpreter stops at the first that fails and reports its text.
 */
module Runner {
  import opened Common
  import opened Protocol

  /** The end of a spawned command; only exit code 0 is a success. */
  datatype Exit = SpawnFailed | Exited(code: Option<int>) {
    predicate Success() { this == Exited(Some(0)) }
  }

  /** `error` is the text reported should the operation fail. */
  datatype Op =
    | RunCommand(command: seq<string>, cwd: Option<string>, exit: Exit, error: string)
    | CheckOutput(command: seq<string>, exit: Exit, error: string)
    | SendMetric(name: string, value: string)
    | Dependencies(missing: seq<string>, error: string)
    | SendArtifact(stored: bool, error: string)
    | ExplicitError(error: string)
    | Quiet

  datatype Goodfile = Present(ops: seq<Op>) | Absent(defaultOps: seq<Op>) | Inaccessible

  /** All a task meets on its way: the clone, the checkout, and the goodfile. */
  datatype World = World(clone: Exit, checkout: Exit, goodfile: Goodfile)

  predicate Fails(op: Op) {
    match op
    case RunCommand(_, _, exit, _) => !exit.Success()
    case CheckOutput(_, exit, _) => !exit.Success()
    case SendMetric(_, _) => false
    case Dependencies(missing, _) => missing != []
    case SendArtifact(stored, _) => !stored
    case ExplicitError(_) => true
    case Quiet => false
  }

  /** A command that could not be spawned is announced but never reported as finished. */
  function Messages(op: Op): seq<ClientProto> {
    match op
    case RunCommand(command, cwd, exit, _) =>
      [Command(CommandStarted(command, cwd, 1))] +
      (match exit case SpawnFailed => [] case Exited(code) => [Command(CommandFinished(code, 1))])
    case SendMetric(name, value) => [Metric(name, value)]
    case _ => []
  }

  /** The first operation that fails, or their number. */
  function FirstFailure(ops: seq<Op>): (k: nat)
    ensures k <= |ops| && (forall i :: 0 <= i < k ==> !Fails(ops[i])) && (k < |ops| ==> Fails(ops[k]))
  {
    if ops == [] || Fails(ops[0]) then 0 else 1 + FirstFailure(ops[1..])
  }

  /** Operation `k` is the first to fail. */
  predicate FailsFirst(ops: seq<Op>, k: int) {
    0 <= k < |ops| && Fails(ops[k]) && forall i :: 0 <= i < k ==> !Fails(ops[i])
  }

  function AllMessages(ops: seq<Op>): seq<ClientProto> {
    if ops == [] then [] else AllMessages(ops[..|ops| - 1]) + Messages(ops[|ops| - 1])
  }

  /** The operations that are carried out, the failing one included. */
  function Executed(ops: seq<Op>): (done: seq<Op>)
    ensures done <= ops && (forall i :: 0 <= i < |done| - 1 ==> !Fails(done[i]))
    ensures done == ops || (done != [] && Fails(done[|done| - 1]))
  {
    var k := FirstFailure(ops);
    if k < |ops| then ops[..k + 1] else ops
  }

  predicate CheckoutOk(w: World) {
    w.clone.Success() && w.checkout.Success()
  }

  function OpsOf(g: Goodfile): seq<Op> {
    match g
    case Present(ops) => ops
    case Absent(ops) => ops
    case Inaccessible => []
  }

  /** What the task comes to: `None` when everything succeeded, else the reason that is reported. */
  function FailureOf(w: World): Option<string> {
    if !CheckoutOk(w) then Some("bad_ref")
    else if w.goodfile.Inaccessible? then Some("inaccessible goodfile")
    else
      var ops, k := OpsOf(w.goodfile), FirstFailure(OpsOf(w.goodfile));
      if k < |ops| then Some(ops[k].error) else None
  }

  function FinalStatus(w: World): TaskInfo {
    if !CheckoutOk(w) then TaskFinished("bad_ref")
    else match FailureOf(w)
      case None => TaskFinished("pass")
      case Some(reason) => TaskInterrupted("failed", Some(reason))
  }

  lemma StatusOfBuild(w: World, res: Result<()>, status: TaskInfo)
    requires CheckoutOk(w)
    requires res == match FailureOf(w) case None => Ok(()) case Some(reason) => Err(reason)
    requires status == match res case Ok(_) => TaskFinished("pass") case Err(reason) => TaskInterrupted("failed", Some(reason))
    ensures FinalStatus(w) == status
  {
  }

  /** Everything a task sends between its start and its final status. */
  function Reports(w: World): seq<ClientProto> {
    if CheckoutOk(w) then AllMessages(Executed(OpsOf(w.goodfile))) else []
  }

  /** All that a runner sends for a task. */
  function Conversation(w: World): seq<ClientProto> {
    [Started] + Reports(w) + [TaskStatus(FinalStatus(w))]
  }

  predicate IsReport(m: ClientProto) {
    m.Command? || m.Metric?
  }

  lemma {:induction false} AllMessagesAreReports(ops: seq<Op>)
    ensures forall m :: m in AllMessages(ops) ==> IsReport(m)
  {
    if ops != [] {
      AllMessagesAreReports(ops[..|ops| - 1]);
    }
  }

  /** A conversation begins with Started and ends with its only TaskStatus; in between are only reports. */
  lemma ConversationShape(w: World)
    ensures var c := Conversation(w);
            && |c| >= 2 && c[0] == Started && c[|c| - 1].TaskStatus?
            && forall i :: 0 < i < |c| - 1 ==> IsReport(c[i])
  {
    AllMessagesAreReports(Executed(OpsOf(w.goodfile)));
    var c, r := Conversation(w), Reports(w);
    assert c == [Started] + r + [TaskStatus(FinalStatus(w))];
    forall i | 0 < i < |c| - 1
      ensures IsReport(c[i])
    {
      assert c[i] == r[i - 1];
    }
  }

  /** How many pings come before anything else. */
  function LeadingPings(inbox: seq<ClientProto>): (k: nat)
    ensures k <= |inbox| && (forall i :: 0 <= i < k ==> inbox[i] == Ping) && (k < |inbox| ==> inbox[k] != Ping)
  {
    if inbox == [] || inbox[0] != Ping then 0 else 1 + LeadingPings(inbox[1..])
  }

  class RemoteServerRunner {
    var sent: seq<ClientProto>

    constructor ()
      ensures sent == []
    {
      sent := [];
    }

    /** `wait_for_work` on all the server sends before it hangs up: each ping is answered, and what follows the pings decides. */
    method WaitForWork(inbox: seq<ClientProto>) returns (res: Result<Option<RequestedJob>>)
      modifies this
      ensures var k := LeadingPings(inbox);
              && sent == old(sent) + seq(k, _ => Pong)
              && (k == |inbox| <==> res == Ok(None))
              && (k < |inbox| && inbox[k].NewTask? ==> res == Ok(Some(inbox[k].task)))
              && (k < |inbox| && !inbox[k].NewTask? ==> res.Err?)
    {
      var i := 0;
      while i < |inbox|
        invariant 0 <= i <= |inbox| && sent == old(sent) + seq(i, _ => Pong)
        invariant forall j :: 0 <= j < i ==> inbox[j] == Ping
      {
        match inbox[i] {
          case NewTask(task) =>
            assert i == LeadingPings(inbox);
            return Ok(Some(task));
          case Ping =>
            sent := sent + [Pong];
          case _ =>
            assert i == LeadingPings(inbox);
            return Err("unexpected message");
        }
        i := i + 1;
      }
      assert i == LeadingPings(inbox);
      return Ok(None);
    }
  }

  /** One task on a connection to the server; `sent` is what the connection has carried. */
  class RunningJob {
    var sent: seq<ClientProto>

    constructor ()
      ensures sent == []
    {
      sent := [];
    }

    method Send(m: ClientProto)
      modifies this
      ensures sent == old(sent) + [m]
    {
      sent := sent + [m];
    }

    /** `clone_remote`: the checkout is attempted only after a successful clone. */
    method CloneRemote(w: World) returns (ok: bool)
      ensures ok <==> CheckoutOk(w)
    {
      if !w.clone.Success() {
        return false;
      }
      if !w.checkout.Success() {
        return false;
      }
      return true;
    }

    method RunOne(op: Op) returns (res: Result<()>)
      modifies this
      ensures sent == old(sent) + Messages(op)
      ensures op.SendMetric? ==> sent == old(sent) + [Metric(op.name, op.value)]
      ensures op.RunCommand? ==>
                sent == old(sent) + [Command(CommandStarted(op.command, op.cwd, 1))]
                        + if op.exit.SpawnFailed? then [] else [Command(CommandFinished(op.exit.code, 1))]
      ensures !op.SendMetric? && !op.RunCommand? ==> sent == old(sent)
      ensures res == if Fails(op) then Err(op.error) else Ok(())
      ensures op.RunCommand? || op.CheckOutput? ==> res == if op.exit == Exited(Some(0)) then Ok(()) else Err(op.error)
      ensures op.Dependencies? ==> res == if op.missing == [] then Ok(()) else Err(op.error)
      ensures op.SendArtifact? ==> res == if op.stored then Ok(()) else Err(op.error)
      ensures op.ExplicitError? ==> res == Err(op.error)
      ensures op.SendMetric? || op.Quiet? ==> res == Ok(())
    {
      match op {
        case RunCommand(command, cwd, exit, error) =>
          Send(Command(CommandStarted(command, cwd, 1)));
          if exit.SpawnFailed? {
            return Err(error);
          }
          Send(Command(CommandFinished(exit.code, 1)));
          if !exit.Success() {
            return Err(error);
          }
          return Ok(());
        case CheckOutput(_, exit, error) =>
          return if exit.Success() then Ok(()) else Err(error);
        case SendMetric(name, value) =>
          Send(Metric(name, value));
          return Ok(());
        case Dependencies(missing, error) =>
          return if |missing| > 0 then Err(error) else Ok(());
        case SendArtifact(stored, error) =>
          return if stored then Ok(()) else Err(error);
        case ExplicitError(error) =>
          return Err(error);
        case Quiet =>
          return Ok(());
      }
    }

    method RunGoodfile(ops: seq<Op>) returns (res: Result<()>)
      modifies this
      ensures sent == old(sent) + AllMessages(Executed(ops))
      ensures res == if FirstFailure(ops) < |ops| then Err(ops[FirstFailure(ops)].error) else Ok(())
    {
      var k := 0;
      while k < |ops|
        invariant 0 <= k <= |ops|
        invariant forall i :: 0 <= i < k ==> !Fails(ops[i])
        invariant sent == old(sent) + AllMessages(ops[..k])
      {
        assert ops[..k + 1][..k] == ops[..k];
        res := RunOne(ops[k]);
        if res.Err? {
          assert k == FirstFailure(ops);
          return;
        }
        k := k + 1;
      }
      assert ops[..k] == ops;
      res := Ok(());
    }

    /** The goodfile of the checkout, the default one when there is none, or the complaint that it cannot be read. */
    method RunBuild(w: World) returns (res: Result<()>)
      requires CheckoutOk(w)
      modifies this
      ensures sent == old(sent) + Reports(w)
      ensures res == match FailureOf(w) case None => Ok(()) case Some(reason) => Err(reason)
      ensures w.goodfile.Inaccessible? ==> res == Err("inaccessible goodfile")
      ensures !w.goodfile.Inaccessible? ==>
                var ops := if w.goodfile.Present? then w.goodfile.ops else w.goodfile.defaultOps;
                && (res.Ok? <==> forall op :: op in ops ==> !Fails(op))
                && (res.Err? ==> exists k :: FailsFirst(ops, k) && res.reason == ops[k].error)
    {
      match w.goodfile {
        case Present(ops) => res := RunGoodfile(ops);
        case Absent(ops) => res := RunGoodfile(ops);
        case Inaccessible => res := Err("inaccessible goodfile");
      }
    }

    /** `RunningJob::run`. */
    method Run(w: World)
      modifies this
      ensures sent == old(sent) + Conversation(w)
    {
      Send(Started);

      var checkedOut := CloneRemote(w);
      if !checkedOut {
        Send(TaskStatus(TaskFinished("bad_ref")));
        return;
      }

      var res := RunBuild(w);
      var status := match res
        case Ok(_) => TaskFinished("pass")
        case Err(reason) => TaskInterrupted("failed", Some(reason));
      StatusOfBuild(w, res, status);
      Send(TaskStatus(status));
    }
  }
}

/**
 One connection: driver and runner as two machines joined by two first-in first-out channels.  Either
 end may die at any step.  Each branch of the programs that treats a message as out of place is a state
 or a count here, so that "it cannot happen" is a statement about every reachable state.
 */
module Sessions {
  import opened Store
  import opened Protocol
  import opened ClientJobs
  import Runner

  /** The driver's response channel holds this many messages before a send has to wait. */
  const CHANNEL_CAPACITY := 8

  /** What travels to the runner: the response status, the greeting, then protocol messages. */
  datatype Chunk = Response(ok: bool) | Hello | Proto(m: ClientProto)

  datatype DriverPhase =
    | Greeting
    | Rejected
    | Searching
    | Pinging
    | Submitted
    | Running(arrivals: seq<Arrival>)
    | DriverConfused(m: ClientProto)

  datatype RunnerPhase =
    | Asking
    | Refused
    | AwaitHello
    | Waiting
    | Ponging
    | Sending(task: RequestedJob, todo: seq<ClientProto>)
    | RunnerConfused(chunk: Chunk)

  /** `died` is history: some end stopped other than by finishing or by seeing the other end gone. */
  datatype Session = Session(
    driver: DriverPhase,
    runner: RunnerPhase,
    down: seq<Chunk>,
    up: seq<ClientProto>,
    driverUp: bool,
    runnerUp: bool,
    rec: Record,
    died: bool)

  /** What a session is about: the request that opens it, the task it may hand over, and how that goes. */
  datatype Setting = Setting(request: ClientProto, task: RequestedJob, w: Runner.World, initial: Record)

  datatype Step =
    | Admit(accepted: bool)
    | SendPing
    | Submit
    | GiveUp
    | DriverReceive(at: nat)
    | DriverSeesEnd
    | RunnerReceive
    | SendPong
    | SendNext
    | Finish
    | SendFails
    | RunnerSeesEnd
    | DriverDies
    | RunnerDies

  ghost predicate Init(s: Session, g: Setting) {
    && g.request.NewTaskPlease? && g.initial.open && g.initial.told == [] && g.initial.unhandled == 0
    && s == Session(Greeting, Asking, [], [g.request], true, true, g.initial, false)
  }

  predicate DriverEnabled(s: Session, st: Step) {
    match st
    case Admit(_) => s.driverUp && s.driver.Greeting? && s.up != []
    case SendPing => s.driverUp && s.driver.Searching?
    case Submit => s.driverUp && s.driver.Searching?
    case GiveUp => s.driverUp && s.driver.Searching?
    case DriverReceive(_) => s.driverUp && (s.driver.Pinging? || s.driver.Submitted? || s.driver.Running?) && s.up != []
    case DriverSeesEnd =>
      && s.driverUp && (s.driver.Greeting? || s.driver.Pinging? || s.driver.Submitted? || s.driver.Running?)
      && s.up == [] && !s.runnerUp
    case DriverDies => s.driverUp
    case _ => false
  }

  function Receive(s: Session, at: nat): Session
    requires s.up != []
  {
    var m, s' := s.up[0], s.(up := s.up[1..]);
    match s.driver
    case Pinging => s'.(driver := if m.Pong? then Searching else DriverConfused(m))
    case Submitted => s'.(driver := if m.Started? then Running([]) else DriverConfused(m))
    case Running(arrivals) =>
      var rec := Handle(s.rec, m, at);
      if rec.open then s'.(driver := Running(arrivals + [Arrival(m, at)]), rec := rec)
      else s'.(driver := DriverConfused(m), rec := rec)
    case _ => s'
  }

  function DriverApply(s: Session, st: Step, g: Setting): Session
    requires DriverEnabled(s, st)
  {
    match st
    case Admit(accepted) =>
      var s' := s.(up := s.up[1..]);
      if !s.up[0].NewTaskPlease? then s'.(driver := DriverConfused(s.up[0]))
      else if accepted then s'.(driver := Searching, down := s.down + [Response(true), Hello])
      else s'.(driver := Rejected, down := s.down + [Response(false), Hello], driverUp := false)
    case SendPing => s.(driver := Pinging, down := s.down + [Proto(Ping)])
    case Submit => s.(driver := Submitted, down := s.down + [Proto(NewTask(g.task))])
    case GiveUp => s.(driverUp := false)
    case DriverReceive(at) => Receive(s, at)
    case DriverSeesEnd => s.(driverUp := false)
    case DriverDies => s.(driverUp := false, died := true)
  }

  predicate RunnerEnabled(s: Session, st: Step) {
    match st
    case RunnerReceive => s.runnerUp && (s.runner.Asking? || s.runner.AwaitHello? || s.runner.Waiting?) && s.down != []
    case SendPong => s.runnerUp && s.runner.Ponging?
    case SendNext => s.runnerUp && s.runner.Sending? && s.runner.todo != []
    case Finish => s.runnerUp && s.runner.Sending? && s.runner.todo == []
    case SendFails => s.runnerUp && !s.driverUp && (s.runner.Ponging? || s.runner.Sending?)
    case RunnerSeesEnd =>
      s.runnerUp && (s.runner.Asking? || s.runner.AwaitHello? || s.runner.Waiting?) && s.down == [] && !s.driverUp
    case RunnerDies => s.runnerUp
    case _ => false
  }

  function Accept(s: Session, g: Setting): Session
    requires s.down != []
  {
    var chunk, s' := s.down[0], s.(down := s.down[1..]);
    match s.runner
    case Asking =>
      if chunk == Response(true) then s'.(runner := AwaitHello)
      else if chunk == Response(false) then s'.(runner := Refused, runnerUp := false)
      else s'.(runner := RunnerConfused(chunk))
    case AwaitHello => s'.(runner := if chunk.Hello? then Waiting else RunnerConfused(chunk))
    case Waiting =>
      if chunk.Proto? && chunk.m.NewTask? then s'.(runner := Sending(chunk.m.task, Runner.Conversation(g.w)))
      else if chunk == Proto(Ping) then s'.(runner := Ponging)
      else s'.(runner := RunnerConfused(chunk))
    case _ => s'
  }

  function RunnerApply(s: Session, st: Step, g: Setting): Session
    requires RunnerEnabled(s, st)
  {
    match st
    case RunnerReceive => Accept(s, g)
    case SendPong => s.(runner := Waiting, up := s.up + [Pong])
    case SendNext => s.(runner := s.runner.(todo := s.runner.todo[1..]), up := s.up + [s.runner.todo[0]])
    case Finish => s.(runnerUp := false)
    case SendFails => s.(runnerUp := false)
    case RunnerSeesEnd => s.(runnerUp := false)
    case RunnerDies => s.(runnerUp := false, died := true)
  }

  /**
   Of any state and any message, also those that this runner never sends: the driver goes on exactly with
   what it waits for, and counts what it does not know as unhandled.
   */
  lemma DriverNotices(s: Session, at: nat)
    requires s.up != []
    ensures var m, s' := s.up[0], Receive(s, at);
            && (s.driver.Pinging? ==> if m == Pong then s'.driver == Searching else s'.driver == DriverConfused(m))
            && (s.driver.Submitted? ==> if m == ClientProto.Started then s'.driver == Running([]) else s'.driver == DriverConfused(m))
            && (s.driver.Running? && s.rec.open ==>
                  && (s'.driver == DriverConfused(m) <==> m.NewTaskPlease?)
                  && (s'.rec.unhandled != s.rec.unhandled <==> m.Started? || m.NewTask? || m.Ping? || m.Pong?))
  {
  }

  /** And so does the runner, up to its task. */
  lemma RunnerNotices(s: Session, g: Setting)
    requires s.down != []
    ensures var chunk, s' := s.down[0], Accept(s, g);
            && (s.runner.Asking? ==> (s'.runner == RunnerConfused(chunk) <==> !chunk.Response?))
            && (s.runner.Asking? ==> (s'.runner == AwaitHello <==> chunk == Response(true)))
            && (s.runner.AwaitHello? ==> if chunk == Hello then s'.runner == Waiting else s'.runner == RunnerConfused(chunk))
            && (s.runner.Waiting? && chunk == Proto(Ping) ==> s'.runner == Ponging)
            && (s.runner.Waiting? && chunk.Proto? && chunk.m.NewTask? ==>
                  s'.runner == Sending(chunk.m.task, Runner.Conversation(g.w)))
            && (s.runner.Waiting? ==>
                  (s'.runner == RunnerConfused(chunk) <==> chunk != Proto(Ping) && !(chunk.Proto? && chunk.m.NewTask?)))
  {
  }

  ghost predicate Next(s: Session, s': Session, g: Setting) {
    exists st :: (DriverEnabled(s, st) && s' == DriverApply(s, st, g)) || (RunnerEnabled(s, st) && s' == RunnerApply(s, st, g))
  }

  ghost predicate StepAt(tr: seq<Session>, i: nat, g: Setting)
    requires i + 1 < |tr|
  {
    Next(tr[i], tr[i + 1], g)
  }

  ghost predicate Behaviour(tr: seq<Session>, g: Setting) {
    |tr| > 0 && Init(tr[0], g) && forall i: nat :: i + 1 < |tr| ==> StepAt(tr, i, g)
  }

  /** The runner has yet to ask for what is in `rest`. */
  predicate Idle(s: Session, rest: seq<Chunk>) {
    match s.runner
    case Asking => s.down == [Response(true), Hello] + rest
    case AwaitHello => s.down == [Hello] + rest
    case Waiting => s.down == rest
    case _ => false
  }

  /** How far the two ends can be apart, for each state of the driver. */
  ghost predicate Coherent(s: Session, g: Setting) {
    match s.driver
    case Greeting => s.runner.Asking? && s.down == [] && s.up == [g.request] && s.rec == g.initial
    case Rejected =>
      && s.up == [] && s.rec == g.initial && !s.driverUp
      && ((s.runner.Asking? && s.down == [Response(false), Hello]) || (s.runner.Refused? && s.down == [Hello] && !s.runnerUp))
    case Searching => s.up == [] && Idle(s, []) && s.rec == g.initial
    case Pinging =>
      && s.rec == g.initial
      && ((s.up == [] && Idle(s, [Proto(Ping)]))
          || (s.up == [] && s.runner.Ponging? && s.down == [])
          || (s.up == [Pong] && s.runner.Waiting? && s.down == []))
    case Submitted =>
      && s.rec == g.initial
      && ((s.up == [] && Idle(s, [Proto(NewTask(g.task))]))
          || (s.runner.Sending? && s.runner.task == g.task && s.down == [] && s.up + s.runner.todo == Runner.Conversation(g.w)))
    case Running(arrivals) =>
      && s.runner.Sending? && s.runner.task == g.task && s.down == []
      && [ClientProto.Started] + Messages(arrivals) + s.up + s.runner.todo == Runner.Conversation(g.w)
      && s.rec == HandleAll(g.initial, arrivals)
    case DriverConfused(_) => false
  }

  /** Unless an end died, a side only stops once it has nothing left to do. */
  ghost predicate Tidy(s: Session) {
    && (!s.died && s.driverUp && !s.runnerUp ==> s.runner.Sending? && s.runner.todo == [])
    && (!s.died && s.driver.Running? && !s.driverUp ==> s.runner.Sending? && s.runner.todo == [] && s.up == [])
    && (!s.died && s.driver.Submitted? ==> s.driverUp)
  }

  ghost predicate Inv(s: Session, g: Setting) {
    && g.request.NewTaskPlease? && g.initial.open && g.initial.told == [] && g.initial.unhandled == 0
    && Coherent(s, g) && Tidy(s)
  }

  /** The next message of a conversation is a report or the final status, never a task request. */
  lemma NextInConversation(done: seq<ClientProto>, m: ClientProto, rest: seq<ClientProto>, w: Runner.World)
    requires [ClientProto.Started] + done + [m] + rest == Runner.Conversation(w)
    ensures Runner.IsReport(m) || m.TaskStatus?
  {
    Runner.ConversationShape(w);
    var c := Runner.Conversation(w);
    assert c[|done| + 1] == m;
  }

  lemma Shift<T>(a: seq<T>, b: seq<T>, c: seq<T>)
    requires b != []
    ensures a + b + c == a + [b[0]] + (b[1..] + c)
    ensures (a + [b[0]]) + b[1..] + c == a + b + c
    ensures a <= a + b + c
  {
  }

  lemma OneMoreArrival(initial: Record, arrivals: seq<Arrival>, m: ClientProto, at: nat, rest: seq<ClientProto>, w: Runner.World)
    requires initial.open && [ClientProto.Started] + Messages(arrivals) + [m] + rest == Runner.Conversation(w)
    ensures HandleAll(initial, arrivals).open && !m.NewTaskPlease?
    ensures HandleAll(initial, arrivals + [Arrival(m, at)]) == Handle(HandleAll(initial, arrivals), m, at)
    ensures [ClientProto.Started] + Messages(arrivals + [Arrival(m, at)]) == [ClientProto.Started] + Messages(arrivals) + [m]
  {
    var more := arrivals + [Arrival(m, at)];
    assert more[..|arrivals|] == arrivals;
    NextInConversation(Messages(arrivals), m, rest, w);
    RecordAgreesWithTask(initial, arrivals, w);
  }

  lemma RunningReceiveKeepsInv(s: Session, at: nat, g: Setting)
    requires Inv(s, g) && s.driver.Running? && DriverEnabled(s, DriverReceive(at))
    ensures Inv(Receive(s, at), g)
  {
    var arrivals, m := s.driver.arrivals, s.up[0];
    Shift([ClientProto.Started] + Messages(arrivals), s.up, s.runner.todo);
    OneMoreArrival(g.initial, arrivals, m, at, s.up[1..] + s.runner.todo, g.w);
    assert Receive(s, at).driver == Running(arrivals + [Arrival(m, at)]);
  }

  lemma StartedComesFirst(s: Session, at: nat, g: Setting)
    requires Inv(s, g) && s.driver.Submitted? && DriverEnabled(s, DriverReceive(at))
    ensures Inv(Receive(s, at), g)
  {
    Runner.ConversationShape(g.w);
    assert s.up[0] == (s.up + s.runner.todo)[0];
    assert s.up == [ClientProto.Started] + s.up[1..];
    assert [ClientProto.Started] + Messages([]) + s.up[1..] == s.up;
  }

  lemma DriverKeepsInv(s: Session, st: Step, g: Setting)
    requires Inv(s, g) && DriverEnabled(s, st)
    ensures Inv(DriverApply(s, st, g), g)
  {
    if st.DriverReceive? {
      match s.driver
      case Running(_) => RunningReceiveKeepsInv(s, st.at, g);
      case Submitted => StartedComesFirst(s, st.at, g);
      case _ =>
    }
  }

  lemma SendNextKeepsInv(s: Session, g: Setting)
    requires Inv(s, g) && RunnerEnabled(s, SendNext)
    ensures Inv(RunnerApply(s, SendNext, g), g)
  {
    if s.driver.Submitted? {
      MoveFirst([], s.up, s.runner.todo);
      assert [] + s.up == s.up && [] + (s.up + [s.runner.todo[0]]) == s.up + [s.runner.todo[0]];
    } else if s.driver.Running? {
      MoveFirst([ClientProto.Started] + Messages(s.driver.arrivals), s.up, s.runner.todo);
    }
  }

  lemma MoveFirst<T>(a: seq<T>, b: seq<T>, c: seq<T>)
    requires c != []
    ensures a + (b + [c[0]]) + c[1..] == a + b + c
  {
  }

  lemma RunnerKeepsInv(s: Session, st: Step, g: Setting)
    requires Inv(s, g) && RunnerEnabled(s, st)
    ensures Inv(RunnerApply(s, st, g), g)
  {
    if st.SendNext? {
      SendNextKeepsInv(s, g);
    }
  }

  lemma NextKeepsInv(s: Session, s': Session, g: Setting)
    requires Inv(s, g) && Next(s, s', g)
    ensures Inv(s', g)
  {
    var st :| (DriverEnabled(s, st) && s' == DriverApply(s, st, g)) || (RunnerEnabled(s, st) && s' == RunnerApply(s, st, g));
    if DriverEnabled(s, st) && s' == DriverApply(s, st, g) {
      DriverKeepsInv(s, st, g);
    } else {
      RunnerKeepsInv(s, st, g);
    }
  }

  lemma {:induction false} InvAlways(tr: seq<Session>, g: Setting, i: nat)
    requires Behaviour(tr, g) && i < |tr|
    ensures Inv(tr[i], g)
  {
    if i > 0 {
      InvAlways(tr, g, i - 1);
      assert StepAt(tr, i - 1, g);
      NextKeepsInv(tr[i - 1], tr[i], g);
    }
  }

  /** Pings under way, being answered, or answered and not yet read. */
  function PingsOutstanding(s: Session): nat {
    multiset(s.down)[Proto(Ping)] + (if s.runner.Ponging? then 1 else 0) + multiset(s.up)[Pong]
  }

  lemma ConversationHasNoPong(w: Runner.World)
    ensures Pong !in Runner.Conversation(w)
  {
    Runner.ConversationShape(w);
  }

  lemma PartHasNoPong(before: seq<ClientProto>, part: seq<ClientProto>, rest: seq<ClientProto>, w: Runner.World)
    requires before + part + rest == Runner.Conversation(w)
    ensures Pong !in part
  {
    ConversationHasNoPong(w);
    assert forall m :: m in part ==> m in before + part + rest;
  }

  lemma SendingHasNoPong(s: Session, g: Setting)
    requires Inv(s, g) && s.runner.Sending?
    ensures Pong !in s.up
  {
    if s.driver.Running? {
      PartHasNoPong([ClientProto.Started] + Messages(s.driver.arrivals), s.up, s.runner.todo, g.w);
    } else {
      assert [] + s.up + s.runner.todo == s.up + s.runner.todo;
      PartHasNoPong([], s.up, s.runner.todo, g.w);
    }
  }

  /**
   With either end free to die at any moment: no message is ever out of place for whoever reads it, a
   ping is outstanding exactly while the driver waits for its answer, and then only one, and the driver
   never has to wait for room in its channel.  The task a runner is at is the one the driver handed over.
   */
  lemma BothEndsConform(tr: seq<Session>, g: Setting, i: nat)
    requires Behaviour(tr, g) && i < |tr|
    ensures var s := tr[i];
            && !s.driver.DriverConfused? && !s.runner.RunnerConfused? && s.rec.unhandled == 0
            && PingsOutstanding(s) == (if s.driver.Pinging? then 1 else 0)
            && |s.down| < CHANNEL_CAPACITY
            && (s.runner.Sending? ==> s.runner.task == g.task)
  {
    InvAlways(tr, g, i);
    var s := tr[i];
    if s.driver.Running? {
      assert [ClientProto.Started] + Messages(s.driver.arrivals) <= [ClientProto.Started] + Messages(s.driver.arrivals) + s.up + s.runner.todo;
      RecordAgreesWithTask(g.initial, s.driver.arrivals, g.w);
    }
    if s.runner.Sending? {
      SendingHasNoPong(s, g);
    }
  }

  ghost predicate CanStep(s: Session, st: Step) {
    !st.DriverDies? && !st.RunnerDies? && (DriverEnabled(s, st) || RunnerEnabled(s, st))
  }

  /** The step that either end takes next, if the other leaves it one. */
  function RunnerNext(s: Session): Step {
    if s.runner.Ponging? then SendPong
    else if s.runner.Sending? then (if s.runner.todo == [] then Finish else SendNext)
    else if s.down != [] then RunnerReceive
    else RunnerSeesEnd
  }

  function DriverNext(s: Session): Step {
    if s.driver.Greeting? then Admit(true)
    else if s.driver.Searching? then GiveUp
    else if s.up != [] then DriverReceive(0)
    else DriverSeesEnd
  }

  /** Alone, each end goes on to its end. */
  lemma NotStuckAlone(s: Session, g: Setting)
    requires Inv(s, g) && s.driverUp != s.runnerUp
    ensures CanStep(s, if s.driverUp then DriverNext(s) else RunnerNext(s))
  {
  }

  /** Together, the runner can go on unless it waits for a driver that has something to do. */
  lemma NotStuckTogether(s: Session, g: Setting)
    requires Inv(s, g) && s.driverUp && s.runnerUp
    ensures CanStep(s, DriverNext(s)) || CanStep(s, RunnerNext(s))
  {
    match s.driver
    case Greeting => assert DriverEnabled(s, Admit(true));
    case Searching => assert DriverEnabled(s, GiveUp);
    case Pinging => PingIsAnswered(s, g);
    case _ => HandedGoesOn(s, g);
  }

  lemma PingIsAnswered(s: Session, g: Setting)
    requires Inv(s, g) && s.driverUp && s.runnerUp && s.driver.Pinging?
    ensures CanStep(s, DriverNext(s)) || CanStep(s, RunnerNext(s))
  {
  }

  lemma HandedGoesOn(s: Session, g: Setting)
    requires Inv(s, g) && s.driverUp && s.runnerUp && !s.driver.Greeting? && !s.driver.Searching? && !s.driver.Pinging?
    ensures CanStep(s, RunnerNext(s))
  {
  }

  /** As long as an end is up, one of them can take a step that is not dying. */
  lemma NeverStuck(tr: seq<Session>, g: Setting, i: nat)
    requires Behaviour(tr, g) && i < |tr| && (tr[i].driverUp || tr[i].runnerUp)
    ensures exists st :: CanStep(tr[i], st)
  {
    InvAlways(tr, g, i);
    if tr[i].driverUp && tr[i].runnerUp {
      NotStuckTogether(tr[i], g);
    } else {
      NotStuckAlone(tr[i], g);
    }
  }

  predicate Handed(s: Session) {
    s.driver.Submitted? || s.driver.Running?
  }

  /** How much is left of a session once a task has been handed over. */
  function Remaining(s: Session, g: Setting): nat {
    (if s.runner.Sending? then 2 * |s.runner.todo| + |s.up|
     else 2 * |Runner.Conversation(g.w)| + 1 + |s.down|)
    + (if s.driverUp then 1 else 0) + (if s.runnerUp then 1 else 0)
  }

  lemma DriverBringsTheEnd(s: Session, st: Step, g: Setting)
    requires Inv(s, g) && Handed(s) && DriverEnabled(s, st) && Inv(DriverApply(s, st, g), g)
    ensures Handed(DriverApply(s, st, g)) && Remaining(DriverApply(s, st, g), g) < Remaining(s, g)
  {
    if st.DriverReceive? {
      var s' := Receive(s, st.at);
      assert s.runner.Sending? && s'.runner == s.runner && |s'.up| == |s.up| - 1;
      assert s'.driverUp == s.driverUp && s'.runnerUp == s.runnerUp;
    }
  }

  lemma RunnerBringsTheEnd(s: Session, st: Step, g: Setting)
    requires Inv(s, g) && Handed(s) && RunnerEnabled(s, st)
    ensures Handed(RunnerApply(s, st, g)) && Remaining(RunnerApply(s, st, g), g) < Remaining(s, g)
  {
  }

  /** A session that has handed over its task stays so, and every step brings it closer to its end. */
  lemma HandedSessionsEnd(s: Session, s': Session, g: Setting)
    requires Inv(s, g) && Handed(s) && Next(s, s', g)
    ensures Handed(s') && Remaining(s', g) < Remaining(s, g)
  {
    var st :| (DriverEnabled(s, st) && s' == DriverApply(s, st, g)) || (RunnerEnabled(s, st) && s' == RunnerApply(s, st, g));
    if DriverEnabled(s, st) && s' == DriverApply(s, st, g) {
      DriverKeepsInv(s, st, g);
      DriverBringsTheEnd(s, st, g);
    } else {
      RunnerBringsTheEnd(s, st, g);
    }
  }

  /** So from a hand-over on, only so many steps are left, messages, failures and deaths included. */
  lemma {:induction false} HandedFor(tr: seq<Session>, g: Setting, i: nat, j: nat)
    requires Behaviour(tr, g) && i <= j < |tr| && Handed(tr[i])
    ensures Handed(tr[j]) && Remaining(tr[j], g) + (j - i) <= Remaining(tr[i], g)
  {
    if i < j {
      HandedFor(tr, g, i, j - 1);
      InvAlways(tr, g, j - 1);
      assert StepAt(tr, j - 1, g);
      HandedSessionsEnd(tr[j - 1], tr[j], g);
    }
  }

  /**
   At every moment the run's row is as it was, or has the verdict of the task; the notifiers know the
   same, once.  Unless an end died, a driver that has left a running task left it with its verdict.
   */
  lemma RowHasTheVerdictOrIsUntouched(tr: seq<Session>, g: Setting, i: nat)
    requires Behaviour(tr, g) && i < |tr|
    ensures var s, v := tr[i], Verdict(g.w);
            && ((s.rec.row == g.initial.row && s.rec.told == [])
                || ((exists at :: s.rec.row == Completed(g.initial.row, at, v)) && s.rec.told == [v]))
            && (s.driver.Running? && !s.driverUp && !s.died ==> s.rec.told == [v])
  {
    InvAlways(tr, g, i);
    var s := tr[i];
    if s.driver.Running? {
      var first := [ClientProto.Started] + Messages(s.driver.arrivals);
      assert first <= first + s.up + s.runner.todo;
      RecordAgreesWithTask(g.initial, s.driver.arrivals, g.w);
      if s.up == [] && s.runner.todo == [] {
        assert first + s.up + s.runner.todo == first;
      }
    }
  }

  /** The status a driver is about to read says the verdict of the task, and is the only one it ever reads. */
  lemma StatusCarriesVerdict(tr: seq<Session>, g: Setting, i: nat)
    requires Behaviour(tr, g) && i < |tr|
    requires tr[i].driver.Running? && tr[i].up != [] && tr[i].up[0].TaskStatus?
    ensures OutcomeOf(tr[i].up[0].taskInfo) == Verdict(g.w) && tr[i].rec.told == []
  {
    InvAlways(tr, g, i);
    var s := tr[i];
    var first := [ClientProto.Started] + Messages(s.driver.arrivals);
    Runner.ConversationShape(g.w);
    assert (first + s.up + s.runner.todo)[|first|] == s.up[0];
    assert first <= first + s.up + s.runner.todo;
    StatusMeansVerdict(g.w);
    RecordAgreesWithTask(g.initial, s.driver.arrivals, g.w);
  }
}

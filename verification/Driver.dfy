/** The driver's own loops: the search for work with its deadline, a hand-over, and the reaper's sweep. */
module Driver {
  import opened Common
  import opened Store
  import opened Database
  import Protocol

  const DEADLINE_S := 300
  const NAP_MS := 100
  const LOST_CLIENT := "lost client connection"
  const NO_TASK := "5min new task deadline elapsed"

  /** More idle passes than this cannot fit between the start of a search and its deadline. */
  const MAX_IDLE := 3010

  /**
   One idle pass of the search: the time since the search began once the nap is over, whether the
   client answered the ping, and the tables and clock that the next pass will find.
   */
  datatype Round = Round(elapsed: nat, pingOk: bool, tables: Db, now: nat)

  /** Naps take at least as long as asked for, and others leave the tables well-formed. */
  ghost predicate Rounds(rounds: nat -> Round) {
    forall k: nat :: rounds(k).elapsed >= NAP_MS * (k + 1) && rounds(k).tables.Valid()
  }

  predicate PastDeadline(elapsed: nat) {
    elapsed / 1000 > DEADLINE_S
  }

  /** The tables and the clock at the start of pass `k`. */
  function TablesAt(db: Db, rounds: nat -> Round, k: nat): Db {
    if k == 0 then db else rounds(k - 1).tables
  }

  function NowAt(now: nat, rounds: nat -> Round, k: nat): nat {
    if k == 0 then now else rounds(k - 1).now
  }

  /** A pass that finds nothing, after which the search goes on. */
  ghost predicate IdlePass(db: Db, now: nat, host: nat, accepted: Option<seq<string>>, rounds: nat -> Round, k: nat) {
    EmptyPass(db, now, host, accepted, rounds, k) && rounds(k).pingOk && !PastDeadline(rounds(k).elapsed)
  }

  ghost predicate EmptyPass(db: Db, now: nat, host: nat, accepted: Option<seq<string>>, rounds: nat -> Round, k: nat) {
    && NothingPending(TablesAt(db, rounds, k), host, accepted)
    && NoAlternate(TablesAt(db, rounds, k), host, accepted, NowAt(now, rounds, k) - DAY_MS)
  }

  ghost predicate IdledFor(db: Db, now: nat, host: nat, accepted: Option<seq<string>>, rounds: nat -> Round, passes: nat) {
    forall k :: 0 <= k < passes ==> IdlePass(db, now, host, accepted, rounds, k)
  }

  lemma Idled(db: Db, now: nat, host: nat, accepted: Option<seq<string>>, rounds: nat -> Round, k: nat)
    requires IdledFor(db, now, host, accepted, rounds, k) && IdlePass(db, now, host, accepted, rounds, k)
    ensures IdledFor(db, now, host, accepted, rounds, k + 1)
  {
  }

  lemma Emptied(db: Db, now: nat, host: nat, accepted: Option<seq<string>>, rounds: nat -> Round, k: nat, db': Db)
    requires Finds(TablesAt(db, rounds, k), host, accepted, NowAt(now, rounds, k) - DAY_MS, NowAt(now, rounds, k), None, db')
    ensures EmptyPass(db, now, host, accepted, rounds, k)
  {
  }

  /** The first pass with something to do decides. */
  ghost predicate FoundAfter(db: Db, now: nat, host: nat, accepted: Option<seq<string>>, rounds: nat -> Round,
                             passes: nat, w: Work, db': Db) {
    && IdledFor(db, now, host, accepted, rounds, passes)
    && Finds(TablesAt(db, rounds, passes), host, accepted, NowAt(now, rounds, passes) - DAY_MS,
             NowAt(now, rounds, passes), Some(w), db')
  }

  /** Every pass was empty, and the last ended with the client gone or the deadline past. */
  ghost predicate GaveUpAfter(db: Db, now: nat, host: nat, accepted: Option<seq<string>>, rounds: nat -> Round,
                              passes: nat, reason: string, db': Db) {
    && passes > 0
    && IdledFor(db, now, host, accepted, rounds, passes - 1)
    && EmptyPass(db, now, host, accepted, rounds, passes - 1)
    && db' == TablesAt(db, rounds, passes)
    && (!rounds(passes - 1).pingOk || PastDeadline(rounds(passes - 1).elapsed))
    && reason == if !rounds(passes - 1).pingOk then LOST_CLIENT else NO_TASK
  }

  lemma GivenUp(db: Db, now: nat, host: nat, accepted: Option<seq<string>>, rounds: nat -> Round, passes: nat, reason: string)
    requires passes > 0 && IdledFor(db, now, host, accepted, rounds, passes - 1)
    requires EmptyPass(db, now, host, accepted, rounds, passes - 1)
    requires !rounds(passes - 1).pingOk || PastDeadline(rounds(passes - 1).elapsed)
    requires reason == if !rounds(passes - 1).pingOk then LOST_CLIENT else NO_TASK
    ensures GaveUpAfter(db, now, host, accepted, rounds, passes, reason, TablesAt(db, rounds, passes))
  {
  }

  /** Time runs out: pass 3010 and any later one end beyond the deadline. */
  lemma IdlePassesAreFew(rounds: nat -> Round, k: nat)
    requires Rounds(rounds) && !PastDeadline(rounds(k).elapsed)
    ensures k + 1 < MAX_IDLE
  {
  }

  /** The bound is met by naps that take no longer than asked for and a client that stays. */
  lemma BoundIsMet(db: Db, now: nat, host: nat, accepted: Option<seq<string>>, rounds: nat -> Round,
                   passes: nat, reason: string, db': Db)
    requires forall k: nat :: rounds(k).elapsed == NAP_MS * (k + 1) && rounds(k).pingOk
    requires GaveUpAfter(db, now, host, accepted, rounds, passes, reason, db')
    ensures passes == 3010 && reason == "5min new task deadline elapsed"
  {
    assert rounds(passes - 1).elapsed == NAP_MS * passes;
    assert !IdlePass(db, now, host, accepted, rounds, MAX_IDLE - 1);
  }

  /** Whenever the search gives up it says why; a client that is gone counts before a deadline that is past. */
  lemma GivesItsReason(db: Db, now: nat, host: nat, accepted: Option<seq<string>>, rounds: nat -> Round,
                       passes: nat, reason: string, db': Db)
    requires GaveUpAfter(db, now, host, accepted, rounds, passes, reason, db')
    ensures reason == if !rounds(passes - 1).pingOk then "lost client connection" else "5min new task deadline elapsed"
    ensures rounds(passes - 1).pingOk ==> rounds(passes - 1).elapsed >= 301_000
  {
  }

  /** `find_client_task`, up to the hand-over.  `passes` counts the pings that were sent. */
  method FindClientTask(db: DbCtx, host: nat, accepted: Option<seq<string>>, now: nat, rounds: nat -> Round)
    returns (res: Result<Work>, passes: nat)
    requires db.Valid() && Rounds(rounds)
    modifies db
    ensures passes <= MAX_IDLE && db.Valid()
    ensures res.Ok? ==> FoundAfter(old(db.Contents()), now, host, accepted, rounds, passes, res.value, db.Contents())
    ensures res.Err? ==> GaveUpAfter(old(db.Contents()), now, host, accepted, rounds, passes, res.reason, db.Contents())
  {
    ghost var before := db.Contents();
    passes := 0;
    while true
      invariant db.Valid() && db.Contents() == TablesAt(before, rounds, passes)
      invariant IdledFor(before, now, host, accepted, rounds, passes)
      invariant passes < MAX_IDLE
      decreases MAX_IDLE - passes
    {
      var clock := NowAt(now, rounds, passes);
      var w := OnePass(db, host, accepted, clock);
      if w.Some? {
        return Ok(w.value), passes;
      }

      Emptied(before, now, host, accepted, rounds, passes, db.Contents());

      var ended := Nap(db, rounds(passes));
      passes := passes + 1;
      if ended.Some? {
        GivenUp(before, now, host, accepted, rounds, passes, ended.value);
        return Err(ended.value), passes;
      }
      IdlePassesAreFew(rounds, passes - 1);
      Idled(before, now, host, accepted, rounds, passes - 1);
    }
  }

  method OnePass(db: DbCtx, host: nat, accepted: Option<seq<string>>, clock: nat) returns (w: Option<Work>)
    requires db.Valid()
    modifies db
    ensures db.Valid() && Finds(old(db.Contents()), host, accepted, clock - DAY_MS, clock, w, db.Contents())
  {
    w := db.FindWork(host, accepted, clock, clock);
  }

  /** The end of a pass: a nap, during which the tables become what others make of them, a ping, and the deadline. */
  method Nap(db: DbCtx, round: Round) returns (ended: Option<string>)
    requires round.tables.Valid()
    modifies db
    ensures db.Valid() && db.Contents() == round.tables
    ensures ended == if !round.pingOk then Some(LOST_CLIENT) else if PastDeadline(round.elapsed) then Some(NO_TASK) else None
  {
    OthersWrite(db, round.tables);
    if !round.pingOk {
      return Some(LOST_CLIENT);
    }
    if PastDeadline(round.elapsed) {
      return Some(NO_TASK);
    }
    return None;
  }

  /** Other tasks and processes at work on the database. */
  method OthersWrite(db: DbCtx, tables: Db)
    requires tables.Valid()
    modifies db
    ensures db.Valid() && db.Contents() == tables
  {
    db.runs, db.nextRun, db.jobs, db.nextJob := tables.runs, tables.nextRun, tables.jobs, tables.nextJob;
  }

  /** One client served without interference: work is found and, the client acknowledging, activated. */
  ghost predicate Served(db: Db, host: nat, accepted: Option<seq<string>>, token: nat, now: nat, w: Option<Work>, db': Db) {
    match w
    case None => Finds(db, host, accepted, now - DAY_MS, now, None, db')
    case Some(work) =>
      exists mid :: Finds(db, host, accepted, now - DAY_MS, now, w, mid) && db' == mid.Activate(work.run, host, token, now)
  }

  /** The process-wide map of active tasks, of which only the ids are ever looked at. */
  class ActiveTasks {
    var ids: set<nat>

    constructor ()
      ensures ids == {}
    {
      ids := {};
    }
  }

  /** `submit`: what the client's answer to a task makes of it; Ok(false) is a client that hung up. */
  method Submit(active: ActiveTasks, run: nat, answer: Result<Option<Protocol.ClientProto>>) returns (acked: Result<bool>)
    modifies active
    ensures acked == Ok(true) <==> answer == Ok(Some(Protocol.Started))
    ensures acked == Ok(false) <==> answer == Ok(None)
    ensures active.ids == old(active.ids) + (if acked == Ok(true) then {run} else {})
  {
    match answer {
      case Ok(Some(Started)) =>
        active.ids := active.ids + {run};
        return Ok(true);
      case Ok(Some(_)) => return Err("client rejected job");
      case Ok(None) => return Ok(false);
      case Err(e) => return Err(e);
    }
  }

  /**
   `activate_run`: unless the client acknowledges, nothing is changed; if it does, the run is first among
   the active tasks and then recorded as started, at the time read before it was offered.
   */
  method ActivateRun(db: DbCtx, active: ActiveTasks, run: nat, host: nat, token: nat, now: nat,
                     answer: Result<Option<Protocol.ClientProto>>) returns (res: Result<()>)
    requires db.Valid()
    modifies db, active
    ensures db.Valid()
    ensures res.Ok? <==> answer == Ok(Some(Protocol.Started))
    ensures res.Ok? ==> active.ids == old(active.ids) + {run} && db.Contents() == old(db.Contents()).Activate(run, host, token, now)
    ensures res.Err? ==> active.ids == old(active.ids) && db.Contents() == old(db.Contents())
    ensures res.Ok? && run in old(db.runs) ==>
              db.runs == old(db.runs)[run := old(db.runs)[run].(state := Started, startTime := Some(now), hostId := Some(host),
                                                                buildToken := Some(token), artifactsPath := Some(run))]
  {
    var acked := Submit(active, run, answer);
    match acked {
      case Ok(true) =>
        db.Start(run, host, token, now);
        return Ok(());
      case Ok(false) => return Err("client hung up instead of acking task");
      case Err(e) => return Err("failed to submit task: " + e);
    }
  }

  /** A search and a hand-over to a client that acknowledges. */
  method Serve(db: DbCtx, active: ActiveTasks, host: nat, accepted: Option<seq<string>>, token: nat, now: nat) returns (w: Option<Work>)
    requires db.Valid()
    modifies db, active
    ensures db.Valid() && Served(old(db.Contents()), host, accepted, token, now, w, db.Contents())
    ensures w.Some? ==> w.value.run in active.ids
  {
    w := db.FindWork(host, accepted, now, now);
    if w.Some? {
      var _ := ActivateRun(db, active, w.value.run, host, token, now, Ok(Some(Protocol.Started)));
    }
  }

  // ---- The reaper ----

  /** What a sweep leaves of the run table. */
  ghost predicate Swept(runs: map<nat, Run>, active: set<nat>, threshold: int, runs': map<nat, Run>) {
    && runs'.Keys == runs.Keys
    && forall r :: r in runs ==> runs'[r] == if r !in active && Stale(runs[r], threshold) then Reaped(runs[r]) else runs[r]
  }

  ghost predicate DistinctIds(rows: seq<RunRow>) {
    forall i, j :: 0 <= i < j < |rows| ==> rows[i].id != rows[j].id
  }

  /** `swap_remove`: the last element takes the place of the one removed. */
  function SwapRemove<T>(s: seq<T>, idx: nat): seq<T>
    requires idx < |s|
  {
    s[idx := s[|s| - 1]][..|s| - 1]
  }

  lemma SwapRemoveRemoves(s: seq<RunRow>, idx: nat)
    requires idx < |s| && DistinctIds(s)
    ensures DistinctIds(SwapRemove(s, idx))
    ensures forall x :: x in SwapRemove(s, idx) <==> x in s && x != s[idx]
  {
    var s' := SwapRemove(s, idx);
    forall x | x in s && x != s[idx]
      ensures x in s'
    {
      var i :| 0 <= i < |s| && s[i] == x;
      assert s'[if i == |s| - 1 then idx else i] == x;
    }
  }

  method Position(rows: seq<RunRow>, id: nat) returns (idx: Option<nat>)
    ensures idx.None? ==> forall x :: x in rows ==> x.id != id
    ensures idx.Some? ==> idx.value < |rows| && rows[idx.value].id == id
  {
    for i := 0 to |rows|
      invariant forall k :: 0 <= k < i ==> rows[k].id != id
    {
      if rows[i].id == id {
        return Some(i);
      }
    }
    return None;
  }

  /** Drop the rows of active tasks, met in no particular order. */
  method DropActive(rows: seq<RunRow>, active: set<nat>) returns (rest: seq<RunRow>)
    requires DistinctIds(rows)
    ensures DistinctIds(rest) && forall x :: x in rest <==> x in rows && x.id !in active
  {
    rest := rows;
    var todo := active;
    while todo != {}
      invariant todo <= active && DistinctIds(rest)
      invariant forall x :: x in rest <==> x in rows && x.id !in active - todo
      decreases todo
    {
      var id :| id in todo;
      var idx := Position(rest, id);
      if idx.Some? {
        SwapRemoveRemoves(rest, idx.value);
        OnlyOneHasId(rest, idx.value);
        rest := SwapRemove(rest, idx.value);
      }
      todo := todo - {id};
    }
  }

  lemma OnlyOneHasId(rows: seq<RunRow>, idx: nat)
    requires idx < |rows| && DistinctIds(rows)
    ensures forall x :: x in rows && x.id == rows[idx].id ==> x == rows[idx]
  {
  }

  /** `old_task_reaper`, on tables that nobody else is writing to. */
  method OldTaskReaper(db: DbCtx, active: ActiveTasks, now: nat)
    requires db.Valid()
    modifies db
    ensures db.Valid() && db.jobs == old(db.jobs)
    ensures Swept(old(db.runs), active.ids, now - GRACE_MS, db.runs)
    ensures db.runs.Keys == old(db.runs).Keys
    ensures forall r :: r in db.runs ==>
              var row := old(db.runs)[r];
              db.runs[r] ==
                if row.state == Started && r !in active.ids && (row.startTime.None? || row.startTime.value + 60_000 < now)
                then row.(state := Invalid, finalStatus := Some("lost signal"))
                else row
  {
    var all := db.GetActiveRuns();
    var candidates := DropActive(all, active.ids);
    var threshold := now - GRACE_MS;

    var stale: seq<RunRow> := [];
    for i := 0 to |candidates|
      invariant forall x :: x in stale <==> x in candidates[..i] && Stale(x.row, threshold)
    {
      assert candidates[..i + 1] == candidates[..i] + [candidates[i]];
      if Stale(candidates[i].row, threshold) {
        stale := stale + [candidates[i]];
      }
    }
    assert candidates[..|candidates|] == candidates;

    ghost var before := db.runs;
    for i := 0 to |stale|
      invariant db.Valid() && db.jobs == old(db.jobs) && db.runs.Keys == before.Keys
      invariant forall r :: r in before ==>
                  db.runs[r] == if RunRow(r, before[r]) in stale[..i] then Reaped(before[r]) else before[r]
    {
      assert stale[i] in stale && stale[i] in candidates && stale[i] in all;
      assert stale[..i + 1] == stale[..i] + [stale[i]];
      db.ReapTask(stale[i].id);
    }
    assert stale[..|stale|] == stale;
    assert forall r :: r in before ==>
      (RunRow(r, before[r]) in stale <==> r !in active.ids && Stale(before[r], threshold));
  }
}

/**
 The reaper under full interleaving.  It reads the runs that are pending or started, later reads the
 active tasks, later still computes a threshold, and then marks runs dead one update at a time, while
 clients are being handed runs.  What it reaps is nevertheless decided by the tables as this process
 found them, and by nothing else.
 */
module ReaperSafety {
  import opened Common
  import opened Store
  import opened System

  /** Not past Pending when this process began: only such a run can be activated by it. */
  predicate Fresh(boot: map<nat, Run>, r: nat) {
    r in boot ==> boot[r].state == Pending
  }

  /** Runs that had started in the tables as found, without a start time or too long before `at`. */
  function Orphans(boot: map<nat, Run>, at: nat): set<nat> {
    set r | r in boot && Stale(boot[r], at - GRACE_MS)
  }

  function ReapedSoFar(reaper: Reaper): set<nat> {
    if reaper.Sweeping? then reaper.reaped else {}
  }

  ghost predicate Chosen(db: Db, cands: map<nat, Candidate>) {
    forall c :: c in cands && cands[c].phase.Alternate? ==> cands[c].phase.job in db.jobs
  }

  ghost predicate Held(db: Db, cands: map<nat, Candidate>, boot: map<nat, Run>) {
    forall c :: c in cands && cands[c].phase.HasRun() ==>
      cands[c].phase.run in db.runs && Fresh(boot, cands[c].phase.run)
  }

  ghost predicate Marked(cands: map<nat, Candidate>, active: set<nat>) {
    forall c :: c in cands && (cands[c].phase.Acked? || cands[c].phase.Listening()) ==> cands[c].phase.run in active
  }

  ghost predicate ActiveFresh(active: set<nat>, boot: map<nat, Run>) {
    forall r :: r in active ==> Fresh(boot, r)
  }

  /** What this process may have activated is active and never Invalid; the rest is as found, or reaped. */
  ghost predicate Rows(db: Db, active: set<nat>, boot: map<nat, Run>, reaped: set<nat>) {
    && (forall r :: r in boot ==> r in db.runs)
    && (forall r :: r in db.runs && Fresh(boot, r) && db.runs[r].state != Pending ==>
          r in active && db.runs[r].state != Invalid)
    && (forall r :: r in boot && r in db.runs && !Fresh(boot, r) ==>
          db.runs[r] == if r in reaped then Reaped(boot[r]) else boot[r])
  }

  ghost predicate Captures(rows: map<nat, Run>, boot: map<nat, Run>) {
    && (forall r :: r in rows && !Fresh(boot, r) ==> rows[r] == boot[r])
    && (forall r :: r in boot && boot[r].state == Started ==> r in rows)
  }

  ghost predicate SweepOk(reaper: Reaper, active: set<nat>, boot: map<nat, Run>) {
    match reaper
    case Waiting => true
    case Snapshot(rows) =>
      Captures(rows, boot) && forall r :: r in rows && Fresh(boot, r) && rows[r].state == Started ==> r in active
    case Screened(rows) =>
      Captures(rows, boot) && forall r :: r in rows && rows[r].state == Started ==> !Fresh(boot, r)
    case Sweeping(todo, reaped, at) =>
      todo !! reaped && todo + reaped == Orphans(boot, at)
  }

  ghost predicate Inv(s: Sys) {
    && s.db.Valid()
    && Chosen(s.db, s.cands)
    && Held(s.db, s.cands, s.boot)
    && Marked(s.cands, s.active)
    && ActiveFresh(s.active, s.boot)
    && Rows(s.db, s.active, s.boot, ReapedSoFar(s.reaper))
    && SweepOk(s.reaper, s.active, s.boot)
  }

  lemma InsertKeepsRows(db: Db, row: Run, active: set<nat>, boot: map<nat, Run>, reaped: set<nat>)
    requires db.Valid() && Rows(db, active, boot, reaped)
    requires row.state == Pending && row.jobId in db.jobs
    ensures db.InsertRun(row).Valid() && Rows(db.InsertRun(row), active, boot, reaped)
  {
  }

  /** A run the pending query returns is one this process may activate. */
  lemma PendingIsFresh(db: Db, active: set<nat>, boot: map<nat, Run>, reaped: set<nat>, r: nat)
    requires Rows(db, active, boot, reaped)
    requires r in db.runs && db.runs[r].state == Pending
    ensures Fresh(boot, r)
  {
  }

  lemma UpdateKeepsRows(db: Db, active: set<nat>, boot: map<nat, Run>, reaped: set<nat>, r: nat, row: Run)
    requires db.Valid() && Rows(db, active, boot, reaped)
    requires r in db.runs && r in active && Fresh(boot, r)
    requires row.jobId == db.runs[r].jobId && row.state != Invalid
    ensures db.SetRun(r, row).Valid() && Rows(db.SetRun(r, row), active, boot, reaped)
  {
  }

  lemma ReapKeepsRows(db: Db, active: set<nat>, boot: map<nat, Run>, reaped: set<nat>, r: nat)
    requires db.Valid() && Rows(db, active, boot, reaped)
    requires r in boot && !Fresh(boot, r)
    ensures db.Reap(r).Valid() && Rows(db.Reap(r), active, boot, reaped + {r})
  {
  }

  lemma WorldKeepsInv(s: Sys, w: WorldStep)
    requires Inv(s) && WorldEnabled(s, w)
    ensures Inv(WorldApply(s, w))
  {
  }

  /** A client moves on without the tables changing. */
  lemma MoveKeepsInv(s: Sys, c: nat, phase: Phase)
    requires Inv(s) && c in s.cands
    requires phase.Alternate? ==> phase.job in s.db.jobs
    requires phase.HasRun() ==> phase.run in s.db.runs && Fresh(s.boot, phase.run)
    requires phase.Acked? || phase.Listening() ==> phase.run in s.active
    ensures Inv(s.At(c, phase))
  {
  }

  lemma SearchKeepsInv(s: Sys, c: nat, q: SearchStep)
    requires Inv(s) && c in s.cands && SearchEnabled(s, c, q)
    ensures Inv(SearchApply(s, c, q))
  {
    match q
    case FindPending(run) =>
      PendingIsFresh(s.db, s.active, s.boot, ReapedSoFar(s.reaper), run);
      MoveKeepsInv(s, c, Holding(run, FromPending(s.db)));
    case FindNoPending => MoveKeepsInv(s, c, NoPending);
    case FindAlternate(j, readAt) => MoveKeepsInv(s, c, Alternate(j, s.db, readAt));
    case FindNothing(_) => MoveKeepsInv(s, c, Idle);
    case InsertAlternate(_) => AlternateKeepsInv(s, c, q);
    case Pinged => MoveKeepsInv(s, c, Searching);
  }

  lemma AlternateKeepsInv(s: Sys, c: nat, q: SearchStep)
    requires Inv(s) && c in s.cands && q.InsertAlternate? && SearchEnabled(s, c, q)
    ensures Inv(SearchApply(s, c, q))
  {
    InsertKeepsRows(s.db, PendingRow(s.cands[c].phase.job, Some(s.cands[c].host), q.created), s.active, s.boot, ReapedSoFar(s.reaper));
  }

  lemma HandOffKeepsInv(s: Sys, c: nat, h: HandOffStep)
    requires Inv(s) && c in s.cands && HandOffEnabled(s, c, h)
    ensures Inv(HandOffApply(s, c, h))
  {
    var p := s.cands[c].phase;
    match h
    case ReadStart => MoveKeepsInv(s, c, Submitting(p.run, p.origin, s.now));
    case Ack => MoveKeepsInv(s.(active := s.active + {p.run}), c, Acked(p.run, p.origin, p.start));
    case Activate => UpdateKeepsRows(s.db, s.active, s.boot, ReapedSoFar(s.reaper), p.run,
                                     Activated(s.db.runs[p.run], p.run, s.cands[c].host, s.cands[c].token, p.start));
    case Status(outcome) => MoveKeepsInv(s, c, Completing(p.run, outcome, s.now));
    case Complete => UpdateKeepsRows(s.db, s.active, s.boot, ReapedSoFar(s.reaper), p.run,
                                     Completed(s.db.runs[p.run], p.at, p.outcome));
  }

  lemma SweepKeepsInv(s: Sys, r: SweepStep)
    requires Inv(s) && SweepEnabled(s, r)
    ensures Inv(SweepApply(s, r))
  {
    if r.Reap? {
      ReapKeepsRows(s.db, s.active, s.boot, s.reaper.reaped, r.run);
    } else {
      assert s.db == SweepApply(s, r).db;
      ReadingKeepsSweep(s, r);
    }
  }

  lemma ReadingKeepsSweep(s: Sys, r: SweepStep)
    requires Inv(s) && SweepEnabled(s, r) && !r.Reap?
    ensures SweepOk(SweepApply(s, r).reaper, s.active, s.boot)
  {
  }

  lemma StepKeepsInv(s: Sys, st: Step)
    requires Inv(s) && Enabled(s, st)
    ensures Inv(Apply(s, st))
  {
    match st
    case World(w) => WorldKeepsInv(s, w);
    case Search(c, q) => SearchKeepsInv(s, c, q);
    case HandOff(c, h) => HandOffKeepsInv(s, c, h);
    case Sweep(r) => SweepKeepsInv(s, r);
  }

  lemma NextKeepsInv(s: Sys, s': Sys)
    requires Inv(s) && Next(s, s')
    ensures Inv(s')
  {
    var st :| Enabled(s, st) && s' == Apply(s, st);
    StepKeepsInv(s, st);
  }

  lemma {:induction false} InvAlways(tr: seq<Sys>, i: nat)
    requires Behaviour(tr) && Inv(tr[0]) && i < |tr|
    ensures Inv(tr[i])
  {
    if i > 0 {
      InvAlways(tr, i - 1);
      assert StepAt(tr, i - 1);
      NextKeepsInv(tr[i - 1], tr[i]);
    }
  }

  lemma ValidAlways(tr: seq<Sys>, i: nat)
    requires Behaviour(tr) && JustBooted(tr[0]) && i < |tr|
    ensures tr[i].db.Valid()
  {
    InvAlways(tr, i);
  }

  /** `boot` is the run table at the moment this process began. */
  lemma BootIsTheTableAsFound(s: Sys, s': Sys)
    requires Next(s, s')
    ensures s'.boot == s.boot || (s' == Boot(s) && s'.boot == s.db.runs)
  {
  }

  /**
   Whatever tables the process finds and however its clients interleave with the reaper: only orphans
   are reaped, all of them once the sweep is over, and every run past Pending when the process began
   is otherwise as it was found.  A run this process may have activated is never marked dead.
   */
  lemma ReaperExactness(tr: seq<Sys>, i: nat)
    requires Behaviour(tr) && JustBooted(tr[0]) && i < |tr| && tr[i].reaper.Sweeping?
    ensures tr[i].reaper.reaped <= Orphans(tr[i].boot, tr[i].reaper.at)
    ensures tr[i].reaper.todo == {} ==> tr[i].reaper.reaped == Orphans(tr[i].boot, tr[i].reaper.at)
    ensures tr[i].reaper.todo == {} ==>
              forall r :: r in tr[i].boot && tr[i].boot[r].state == Started ==>
                var row := tr[i].boot[r];
                r in tr[i].db.runs && tr[i].db.runs[r] ==
                  if row.startTime.None? || row.startTime.value + 60_000 < tr[i].reaper.at
                  then row.(state := Invalid, finalStatus := Some("lost signal"))
                  else row
    ensures forall r :: r in tr[i].boot && tr[i].boot[r].state != Pending ==>
              r in tr[i].db.runs &&
              tr[i].db.runs[r] == if r in tr[i].reaper.reaped then Reaped(tr[i].boot[r]) else tr[i].boot[r]
    ensures forall r :: r in tr[i].db.runs && Fresh(tr[i].boot, r) ==> tr[i].db.runs[r].state != Invalid
  {
    InvAlways(tr, i);
  }

  lemma StepOfSweep(s: Sys, s': Sys)
    requires Next(s, s') && s'.reaper.Sweeping?
    ensures (s.reaper.Sweeping? && s'.reaper.at == s.reaper.at) || (s.reaper.Screened? && s'.reaper.at == s.now)
  {
  }

  /** The age of runs is measured at the moment this process filtered what it had read. */
  lemma {:induction false} FilteredThen(tr: seq<Sys>, i: nat) returns (k: nat)
    requires Behaviour(tr) && JustBooted(tr[0]) && i < |tr| && tr[i].reaper.Sweeping?
    ensures k < i && tr[k].reaper.Screened? && tr[k].now == tr[i].reaper.at
    ensures forall j :: k < j <= i ==> tr[j].reaper.Sweeping?
  {
    assert StepAt(tr, i - 1);
    StepOfSweep(tr[i - 1], tr[i]);
    if tr[i - 1].reaper.Sweeping? {
      k := FilteredThen(tr, i - 1);
    } else {
      k := i - 1;
    }
  }

  /** The unconditional update of a stale snapshot still only ever meets the started row it was taken from. */
  lemma ReapMeetsAStartedRun(tr: seq<Sys>, i: nat, r: nat)
    requires Behaviour(tr) && JustBooted(tr[0]) && i < |tr|
    requires tr[i].reaper.Sweeping? && r in tr[i].reaper.todo
    ensures r in tr[i].db.runs && r in tr[i].boot && tr[i].db.runs[r] == tr[i].boot[r]
    ensures tr[i].db.runs[r].state == Started
    ensures forall c :: c in tr[i].cands && tr[i].cands[c].phase.HasRun() ==> tr[i].cands[c].phase.run != r
  {
    InvAlways(tr, i);
    assert r in Orphans(tr[i].boot, tr[i].reaper.at);
  }
}

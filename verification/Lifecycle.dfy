/**
 The life of a run.  Nothing claims a run between the pending query and the update that starts it, so
 two clients can be handed the same one.  `DisjointPicks` says that this is not happening now; while
 it holds, runs live as intended.  Some of it holds whatever the clients do.
 */
module Lifecycle {
  import opened Common
  import opened Store
  import opened System
  import ReaperSafety

  ghost predicate DisjointPicks(cands: map<nat, Candidate>) {
    forall c, d :: c in cands && d in cands && c != d && cands[c].phase.Holds() && cands[d].phase.Holds() ==>
      cands[c].phase.run != cands[d].phase.run
  }

  predicate Assigned(row: Run, r: nat) {
    row.hostId.Some? && row.buildToken.Some? && row.artifactsPath == Some(r) && row.startTime.Some?
  }

  predicate Unassigned(row: Run) {
    row.hostId.None? && row.buildToken.None? && row.artifactsPath.None? && row.startTime.None?
  }

  /** Host, token, artifacts and start are set once a run leaves Pending; the result once it is over. */
  predicate RowOk(row: Run, r: nat) {
    match row.state
    case Pending => Unassigned(row) && row.completeTime.None? && row.buildResult.None?
    case Started => Assigned(row, r) && row.completeTime.None? && row.buildResult.None?
    case Finished => Assigned(row, r) && row.completeTime.Some? && row.buildResult == Some(0)
    case Error => Assigned(row, r) && row.completeTime.Some? && row.buildResult == Some(1)
    case Invalid => Assigned(row, r) && row.completeTime.None? && row.buildResult.None?
  }

  /** Created, then started, then completed, and none of it in the future. */
  predicate Timely(row: Run, now: nat) {
    && row.createTime <= now
    && (row.startTime.Some? ==> row.createTime <= row.startTime.value <= now)
    && (row.completeTime.Some? ==> row.completeTime.value <= now)
    && (row.startTime.Some? && row.completeTime.Some? ==> row.startTime.value <= row.completeTime.value)
  }

  ghost predicate RowsOk(runs: map<nat, Run>, now: nat) {
    forall r :: r in runs ==> RowOk(runs[r], r) && Timely(runs[r], now)
  }

  /** How far the run of a client is, given how far the client is. */
  predicate PhaseOk(runs: map<nat, Run>, phase: Phase, now: nat) {
    match phase
    case Holding(r, _) => r in runs && runs[r].state == Pending
    case Submitting(r, _, start) => r in runs && runs[r].state == Pending && runs[r].createTime <= start <= now
    case Acked(r, _, start) => r in runs && runs[r].state == Pending && runs[r].createTime <= start <= now
    case Working(r) => r in runs && runs[r].state == Started
    case Completing(r, _, at) =>
      r in runs && runs[r].state == Started && runs[r].startTime.Some? && runs[r].startTime.value <= at <= now
    case Reported(r) => r in runs && (runs[r].state == Finished || runs[r].state == Error)
    case _ => true
  }

  ghost predicate PhasesOk(runs: map<nat, Run>, cands: map<nat, Candidate>, now: nat) {
    forall c :: c in cands ==> PhaseOk(runs, cands[c].phase, now)
  }

  predicate Running(phase: Phase) { phase.Working? || phase.Completing? }

  ghost predicate OneClientPerRun(cands: map<nat, Candidate>) {
    forall c, d :: c in cands && d in cands && c != d && Running(cands[c].phase) && Running(cands[d].phase) ==>
      cands[c].phase.run != cands[d].phase.run
  }

  /** The activation log holds every run that has left Pending, once. */
  ghost predicate LogOk(runs: map<nat, Run>, log: seq<nat>) {
    && NoDuplicates(log)
    && (forall r :: r in log ==> r in runs && runs[r].state != Pending)
    && (forall r :: r in runs && runs[r].state != Pending ==> r in log)
  }

  ghost predicate Life(s: Sys) {
    && RowsOk(s.db.runs, s.now)
    && PhasesOk(s.db.runs, s.cands, s.now)
    && OneClientPerRun(s.cands)
    && LogOk(s.db.runs, s.log)
  }

  ghost predicate Inv(s: Sys) {
    ReaperSafety.Inv(s) && Life(s)
  }

  /** A client moves on without the tables changing. */
  lemma MoveKeepsLife(s: Sys, c: nat, phase: Phase)
    requires Life(s) && c in s.cands && PhaseOk(s.db.runs, phase, s.now)
    requires Running(phase) ==> Running(s.cands[c].phase) && s.cands[c].phase.run == phase.run
    ensures Life(s.At(c, phase))
  {
  }

  lemma InsertKeepsLife(s: Sys, jobId: nat, preference: Option<nat>, created: nat)
    requires Life(s) && s.db.Valid() && created <= s.now
    ensures Life(s.(db := s.db.InsertRun(PendingRow(jobId, preference, created))))
  {
  }

  lemma WorldKeepsLife(s: Sys, w: WorldStep)
    requires Life(s) && s.db.Valid() && WorldEnabled(s, w)
    ensures Life(WorldApply(s, w))
  {
    if w.AddRun? {
      InsertKeepsLife(s, w.jobId, None, w.created);
    }
  }

  lemma SearchKeepsLife(s: Sys, c: nat, q: SearchStep)
    requires Life(s) && s.db.Valid() && c in s.cands && SearchEnabled(s, c, q)
    ensures Life(SearchApply(s, c, q))
  {
    match q
    case FindPending(run) => MoveKeepsLife(s, c, Holding(run, FromPending(s.db)));
    case FindNoPending => MoveKeepsLife(s, c, NoPending);
    case FindAlternate(j, readAt) => MoveKeepsLife(s, c, Alternate(j, s.db, readAt));
    case FindNothing(_) => MoveKeepsLife(s, c, Idle);
    case InsertAlternate(created) =>
      InsertKeepsLife(s, s.cands[c].phase.job, Some(s.cands[c].host), created);
      var s1 := s.(db := s.db.InsertRun(PendingRow(s.cands[c].phase.job, Some(s.cands[c].host), created)));
      MoveKeepsLife(s1, c, Holding(s.db.nextRun, FromAlternate(s.cands[c].phase.seen, s.cands[c].phase.readAt)));
    case Pinged => MoveKeepsLife(s, c, Searching);
  }

  ghost predicate OnlyClient(cands: map<nat, Candidate>, c: nat, r: nat) {
    forall d :: d in cands && d != c && cands[d].phase.HasRun() ==> cands[d].phase.run != r
  }

  /** When no other client has the run, changing its row concerns only client `c`. */
  lemma RowChangeKeepsPhases(s: Sys, c: nat, r: nat, row: Run, phase: Phase)
    requires PhasesOk(s.db.runs, s.cands, s.now) && c in s.cands && r in s.db.runs && OnlyClient(s.cands, c, r)
    requires PhaseOk(s.db.runs[r := row], phase, s.now)
    ensures PhasesOk(s.db.runs[r := row], s.At(c, phase).cands, s.now)
  {
  }

  /** Activation by the only client that holds the run. */
  lemma ActivateKeepsLife(s: Sys, c: nat)
    requires Life(s) && DisjointPicks(s.cands) && c in s.cands && s.cands[c].phase.Acked?
    ensures Life(HandOffApply(s, c, Activate))
  {
    var k, r := s.cands[c], s.cands[c].phase.run;
    assert OnlyClient(s.cands, c, r);
    RowChangeKeepsPhases(s, c, r, Activated(s.db.runs[r], r, k.host, k.token, k.phase.start), Working(r));
    assert LogOk(HandOffApply(s, c, Activate).db.runs, s.log + [r]);
  }

  /** Completion by the only client that is running the run. */
  lemma CompleteKeepsLife(s: Sys, c: nat)
    requires Life(s) && c in s.cands && s.cands[c].phase.Completing?
    ensures Life(HandOffApply(s, c, Complete))
  {
    var p := s.cands[c].phase;
    assert OnlyClient(s.cands, c, p.run);
    RowChangeKeepsPhases(s, c, p.run, Completed(s.db.runs[p.run], p.at, p.outcome), Reported(p.run));
  }

  lemma HandOffKeepsLife(s: Sys, c: nat, h: HandOffStep)
    requires Life(s) && DisjointPicks(s.cands) && c in s.cands && HandOffEnabled(s, c, h)
    ensures Life(HandOffApply(s, c, h))
  {
    var p := s.cands[c].phase;
    match h
    case ReadStart => MoveKeepsLife(s, c, Submitting(p.run, p.origin, s.now));
    case Ack => MoveKeepsLife(s.(active := s.active + {p.run}), c, Acked(p.run, p.origin, p.start));
    case Activate => ActivateKeepsLife(s, c);
    case Status(outcome) => MoveKeepsLife(s, c, Completing(p.run, outcome, s.now));
    case Complete => CompleteKeepsLife(s, c);
  }

  /** A reaped run is a started one that no client of this process has anything to do with. */
  lemma SweepKeepsLife(s: Sys, r: SweepStep)
    requires Inv(s) && SweepEnabled(s, r)
    ensures Life(SweepApply(s, r))
  {
    if r.Reap? {
      assert r.run in ReaperSafety.Orphans(s.boot, s.reaper.at);
      assert s.db.runs[r.run].state == Started;
      assert forall c :: c in s.cands && s.cands[c].phase.HasRun() ==> s.cands[c].phase.run != r.run;
      ReapKeepsLife(s.db.runs, s.cands, s.log, s.now, r.run);
    }
  }

  lemma ReapKeepsLife(runs: map<nat, Run>, cands: map<nat, Candidate>, log: seq<nat>, now: nat, r: nat)
    requires RowsOk(runs, now) && PhasesOk(runs, cands, now) && LogOk(runs, log)
    requires r in runs && runs[r].state == Started
    requires forall c :: c in cands && cands[c].phase.HasRun() ==> cands[c].phase.run != r
    ensures var runs' := runs[r := Reaped(runs[r])];
            RowsOk(runs', now) && PhasesOk(runs', cands, now) && LogOk(runs', log)
  {
  }

  lemma StepKeepsInv(s: Sys, st: Step)
    requires Inv(s) && DisjointPicks(s.cands) && Enabled(s, st)
    ensures Inv(Apply(s, st))
  {
    ReaperSafety.StepKeepsInv(s, st);
    match st
    case World(w) => WorldKeepsLife(s, w);
    case Search(c, q) => SearchKeepsLife(s, c, q);
    case HandOff(c, h) => HandOffKeepsLife(s, c, h);
    case Sweep(r) => SweepKeepsLife(s, r);
  }

  lemma NextKeepsInv(s: Sys, s': Sys)
    requires Inv(s) && DisjointPicks(s.cands) && Next(s, s')
    ensures Inv(s')
  {
    var st :| Enabled(s, st) && s' == Apply(s, st);
    StepKeepsInv(s, st);
  }

  lemma {:induction false} InvAlways(tr: seq<Sys>, i: nat)
    requires Behaviour(tr) && Inv(tr[0]) && i < |tr|
    requires forall k :: 0 <= k < i ==> DisjointPicks(tr[k].cands)
    ensures Inv(tr[i])
  {
    if i > 0 {
      InvAlways(tr, i - 1);
      assert StepAt(tr, i - 1);
      NextKeepsInv(tr[i - 1], tr[i]);
    }
  }

  lemma InitOk(s: Sys)
    requires Init(s)
    ensures Inv(s)
  {
  }

  lemma InvFromInit(tr: seq<Sys>, i: nat)
    requires Behaviour(tr) && Init(tr[0]) && i < |tr|
    requires forall k :: 0 <= k < i ==> DisjointPicks(tr[k].cands)
    ensures Inv(tr[i])
  {
    InitOk(tr[0]);
    InvAlways(tr, i);
  }

  /**
   From empty tables, over any number of driver processes: while picks are disjoint every row has
   exactly the columns its state calls for, in time order, and no run is activated twice.
   */
  lemma RunsLiveAsIntended(tr: seq<Sys>, i: nat)
    requires Behaviour(tr) && Init(tr[0]) && i < |tr|
    requires forall k :: 0 <= k < i ==> DisjointPicks(tr[k].cands)
    ensures RowsOk(tr[i].db.runs, tr[i].now)
    ensures NoDuplicates(tr[i].log) && forall r :: r in tr[i].log <==> r in tr[i].db.runs && tr[i].db.runs[r].state != Pending
  {
    InvFromInit(tr, i);
  }

  predicate Follows(a: RunState, b: RunState) {
    || a == b
    || (a == Pending && b == Started)
    || (a == Started && (b == Finished || b == Error || b == Invalid))
  }

  lemma StepFollowsLife(s: Sys, st: Step, r: nat)
    requires Inv(s) && Enabled(s, st) && r in s.db.runs
    ensures r in Apply(s, st).db.runs
    ensures Follows(s.db.runs[r].state, Apply(s, st).db.runs[r].state)
  {
    StepChange(s, st);
    if st.Sweep? && st.r.Reap? {
      assert st.r.run in ReaperSafety.Orphans(s.boot, s.reaper.at);
    }
  }

  /** Each step leaves a run's state alone or moves it along Pending, Started, then one of the ends. */
  lemma StatesFollowTheirOrder(tr: seq<Sys>, i: nat, r: nat)
    requires Behaviour(tr) && Init(tr[0]) && i + 1 < |tr| && r in tr[i].db.runs
    requires forall k :: 0 <= k < i ==> DisjointPicks(tr[k].cands)
    ensures r in tr[i + 1].db.runs && Follows(tr[i].db.runs[r].state, tr[i + 1].db.runs[r].state)
  {
    InvFromInit(tr, i);
    assert StepAt(tr, i);
    var st :| Enabled(tr[i], st) && tr[i + 1] == Apply(tr[i], st);
    StepFollowsLife(tr[i], st, r);
  }

  lemma NextKeepsStarted(s: Sys, s': Sys, r: nat)
    requires s.db.Valid() && Next(s, s') && r in s.db.runs && s.db.runs[r].state != Pending
    ensures r in s'.db.runs && s'.db.runs[r].state != Pending
  {
    var st :| Enabled(s, st) && s' == Apply(s, st);
    StepChange(s, st);
  }

  /** Whoever else holds it and whatever the tables were: a run that has left Pending never returns. */
  lemma {:induction false} NeverPendingAgain(tr: seq<Sys>, i: nat, j: nat, r: nat)
    requires Behaviour(tr) && JustBooted(tr[0]) && i <= j < |tr|
    requires r in tr[i].db.runs && tr[i].db.runs[r].state != Pending
    ensures r in tr[j].db.runs && tr[j].db.runs[r].state != Pending
  {
    if i < j {
      NeverPendingAgain(tr, i, j - 1, r);
      ReaperSafety.ValidAlways(tr, j - 1);
      assert StepAt(tr, j - 1);
      NextKeepsStarted(tr[j - 1], tr[j], r);
    }
  }

  /** Whoever reports it, a run that is over has the result of the way it ended. */
  predicate ResultMatches(row: Run) {
    && (row.state == Finished ==> row.buildResult == Some(0))
    && (row.state == Error ==> row.buildResult == Some(1))
  }

  ghost predicate ResultsMatch(runs: map<nat, Run>) {
    forall r :: r in runs ==> ResultMatches(runs[r])
  }

  lemma NextKeepsResults(s: Sys, s': Sys)
    requires ResultsMatch(s.db.runs) && Next(s, s')
    ensures ResultsMatch(s'.db.runs)
  {
    var st :| Enabled(s, st) && s' == Apply(s, st);
    StepChange(s, st);
  }

  /** In every interleaving, Finished goes with result 0 and Error with result 1. */
  lemma {:induction false} ResultsMatchAlways(tr: seq<Sys>, i: nat)
    requires Behaviour(tr) && ResultsMatch(tr[0].db.runs) && i < |tr|
    ensures ResultsMatch(tr[i].db.runs)
  {
    if i > 0 {
      ResultsMatchAlways(tr, i - 1);
      assert StepAt(tr, i - 1);
      NextKeepsResults(tr[i - 1], tr[i]);
    }
  }

  ghost predicate StartsPast(runs: map<nat, Run>, cands: map<nat, Candidate>, now: nat) {
    && (forall r :: r in runs && runs[r].startTime.Some? ==> runs[r].startTime.value <= now)
    && (forall c :: c in cands && (cands[c].phase.Submitting? || cands[c].phase.Acked?) ==> cands[c].phase.start <= now)
  }

  ghost predicate AllStartsPast(s: Sys) {
    StartsPast(s.db.runs, s.cands, s.now)
  }

  lemma WorldKeepsStartsPast(s: Sys, w: WorldStep)
    requires AllStartsPast(s) && WorldEnabled(s, w)
    ensures AllStartsPast(WorldApply(s, w))
  {
  }

  lemma SearchKeepsStartsPast(s: Sys, c: nat, q: SearchStep)
    requires AllStartsPast(s) && c in s.cands && SearchEnabled(s, c, q)
    ensures AllStartsPast(SearchApply(s, c, q))
  {
  }

  lemma HandOffKeepsStartsPast(s: Sys, c: nat, h: HandOffStep)
    requires AllStartsPast(s) && c in s.cands && HandOffEnabled(s, c, h)
    ensures AllStartsPast(HandOffApply(s, c, h))
  {
  }

  lemma SweepKeepsStartsPast(s: Sys, r: SweepStep)
    requires AllStartsPast(s) && SweepEnabled(s, r)
    ensures AllStartsPast(SweepApply(s, r))
  {
  }

  lemma NextKeepsStartsPast(s: Sys, s': Sys)
    requires AllStartsPast(s) && Next(s, s')
    ensures AllStartsPast(s')
  {
    var st :| Enabled(s, st) && s' == Apply(s, st);
    match st
    case World(w) => WorldKeepsStartsPast(s, w);
    case Search(c, q) => SearchKeepsStartsPast(s, c, q);
    case HandOff(c, h) => HandOffKeepsStartsPast(s, c, h);
    case Sweep(r) => SweepKeepsStartsPast(s, r);
  }

  /** Nor does any interleaving put a start time in the future. */
  lemma {:induction false} StartsPastAlways(tr: seq<Sys>, i: nat)
    requires Behaviour(tr) && AllStartsPast(tr[0]) && i < |tr|
    ensures AllStartsPast(tr[i])
  {
    if i > 0 {
      StartsPastAlways(tr, i - 1);
      assert StepAt(tr, i - 1);
      NextKeepsStartsPast(tr[i - 1], tr[i]);
    }
  }
}

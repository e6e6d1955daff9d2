/**
 Where the interleaved driver and the single sessions meet.  A session brings its driver one status, which
 says the verdict of the task on the other end (`Sessions.StatusCarriesVerdict`).  If every client of the
 driver is like that, then while picks are disjoint each run ends with the verdict of the task that was
 given its token, whatever other clients, the reaper and restarts do.
 */
module Verdicts {
  import opened Common
  import opened Store
  import opened System
  import opened Lifecycle
  import opened ClientJobs
  import Runner

  /** Whatever a client has reported is the verdict of the task that was given its token. */
  ghost predicate Scripted(cands: map<nat, Candidate>, tasks: nat -> Runner.World) {
    forall c :: c in cands && cands[c].phase.Completing? ==> cands[c].phase.outcome == Verdict(tasks(cands[c].token))
  }

  predicate Ended(row: Run) {
    row.state == Finished || row.state == Error
  }

  predicate HasVerdict(row: Run, v: Outcome) {
    && row.state == (if v.pass then Finished else Error)
    && row.buildResult == Some(if v.pass then 0 else 1)
    && row.finalStatus == Some(v.text)
  }

  ghost predicate VerdictsOk(runs: map<nat, Run>, tasks: nat -> Runner.World) {
    forall r :: r in runs && Ended(runs[r]) ==> runs[r].buildToken.Some? && HasVerdict(runs[r], Verdict(tasks(runs[r].buildToken.value)))
  }

  /** A run in progress has the token of the client that is at it. */
  ghost predicate TokensMatch(runs: map<nat, Run>, cands: map<nat, Candidate>) {
    forall c :: c in cands && Running(cands[c].phase) ==>
      cands[c].phase.run in runs && runs[cands[c].phase.run].buildToken == Some(cands[c].token)
  }

  ghost predicate Agrees(s: Sys, tasks: nat -> Runner.World) {
    VerdictsOk(s.db.runs, tasks) && TokensMatch(s.db.runs, s.cands)
  }

  lemma WorldKeepsAgreement(s: Sys, w: WorldStep, tasks: nat -> Runner.World)
    requires s.db.Valid() && Agrees(s, tasks) && WorldEnabled(s, w)
    ensures Agrees(WorldApply(s, w), tasks)
  {
  }

  lemma SearchKeepsAgreement(s: Sys, c: nat, q: SearchStep, tasks: nat -> Runner.World)
    requires s.db.Valid() && Agrees(s, tasks) && c in s.cands && SearchEnabled(s, c, q)
    ensures Agrees(SearchApply(s, c, q), tasks)
  {
    assert !Running(SearchApply(s, c, q).cands[c].phase);
  }

  /** Nobody else is at a run that is still pending. */
  lemma ActivateKeepsAgreement(s: Sys, c: nat, tasks: nat -> Runner.World)
    requires Life(s) && Agrees(s, tasks) && c in s.cands && s.cands[c].phase.Acked?
    ensures Agrees(HandOffApply(s, c, Activate), tasks)
  {
    assert PhaseOk(s.db.runs, s.cands[c].phase, s.now);
    assert forall d :: d in s.cands && Running(s.cands[d].phase) ==> PhaseOk(s.db.runs, s.cands[d].phase, s.now);
  }

  lemma CompleteKeepsAgreement(s: Sys, c: nat, tasks: nat -> Runner.World)
    requires Life(s) && Agrees(s, tasks) && Scripted(s.cands, tasks) && c in s.cands && s.cands[c].phase.Completing?
    ensures Agrees(HandOffApply(s, c, Complete), tasks)
  {
  }

  lemma HandOffKeepsAgreement(s: Sys, c: nat, h: HandOffStep, tasks: nat -> Runner.World)
    requires Life(s) && Agrees(s, tasks) && Scripted(s.cands, tasks) && c in s.cands && HandOffEnabled(s, c, h)
    ensures Agrees(HandOffApply(s, c, h), tasks)
  {
    if h.Activate? {
      ActivateKeepsAgreement(s, c, tasks);
    } else if h.Complete? {
      CompleteKeepsAgreement(s, c, tasks);
    }
  }

  lemma SweepKeepsAgreement(s: Sys, r: SweepStep, tasks: nat -> Runner.World)
    requires Agrees(s, tasks) && SweepEnabled(s, r)
    ensures Agrees(SweepApply(s, r), tasks)
  {
  }

  lemma NextKeepsAgreement(s: Sys, s': Sys, tasks: nat -> Runner.World)
    requires Inv(s) && Agrees(s, tasks) && Scripted(s.cands, tasks) && Next(s, s')
    ensures Agrees(s', tasks)
  {
    var st :| Enabled(s, st) && s' == Apply(s, st);
    match st
    case World(w) => WorldKeepsAgreement(s, w, tasks);
    case Search(c, q) => SearchKeepsAgreement(s, c, q, tasks);
    case HandOff(c, h) => HandOffKeepsAgreement(s, c, h, tasks);
    case Sweep(r) => SweepKeepsAgreement(s, r, tasks);
  }

  lemma {:induction false} AgreesAlways(tr: seq<Sys>, tasks: nat -> Runner.World, i: nat)
    requires Behaviour(tr) && Inv(tr[0]) && Agrees(tr[0], tasks) && i < |tr|
    requires forall k :: 0 <= k < i ==> DisjointPicks(tr[k].cands) && Scripted(tr[k].cands, tasks)
    ensures Inv(tr[i]) && Agrees(tr[i], tasks)
  {
    if i > 0 {
      AgreesAlways(tr, tasks, i - 1);
      assert StepAt(tr, i - 1);
      Lifecycle.NextKeepsInv(tr[i - 1], tr[i]);
      NextKeepsAgreement(tr[i - 1], tr[i], tasks);
    }
  }

  /**
   Each run that has ended has the verdict of the task that was given its token: Finished, 0 and "success"
   exactly if checkout and every operation succeeded, else Error, 1 and the reason that task reported.
   */
  lemma RunsEndWithTheirVerdict(tr: seq<Sys>, tasks: nat -> Runner.World, i: nat, r: nat)
    requires Behaviour(tr) && Init(tr[0]) && i < |tr|
    requires forall k :: 0 <= k < i ==> DisjointPicks(tr[k].cands) && Scripted(tr[k].cands, tasks)
    requires r in tr[i].db.runs && Ended(tr[i].db.runs[r])
    ensures var row := tr[i].db.runs[r];
            && row.buildToken.Some? && HasVerdict(row, Verdict(tasks(row.buildToken.value)))
            && (row.state == Finished <==> EverythingSucceeds(tasks(row.buildToken.value)))
            && (row.state == Finished ==> row.buildResult == Some(0) && row.finalStatus == Some("success"))
            && (row.state == Error ==> row.buildResult == Some(1) && row.finalStatus.Some?
                                       && row.finalStatus == Runner.FailureOf(tasks(row.buildToken.value))
                                       && Explains(tasks(row.buildToken.value), row.finalStatus.value))
  {
    InitOk(tr[0]);
    AgreesAlways(tr, tasks, i);
    var w := tasks(tr[i].db.runs[r].buildToken.value);
    PassMeansSuccess(w);
    if tr[i].db.runs[r].state == Error {
      ReasonExplains(w);
    }
  }
}

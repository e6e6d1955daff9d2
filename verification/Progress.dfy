/**
 That the interleaved driver does something: whatever the tables and whoever else is at work, each client
 has a next step until it has reported, the reaper has one until its sweep is over, and an artifact request
 is let in exactly if the columns of its run allow it.
 */
module Progress {
  import opened Common
  import opened Store
  import opened System

  /** Among runs that could be given there is one that none is newer than. */
  lemma {:induction false} NewestOf(db: Db, rest: set<nat>, r: nat) returns (newest: nat)
    requires r in db.runs && rest <= db.runs.Keys
    ensures newest == r || newest in rest
    ensures newest in db.runs && db.runs[r].createTime <= db.runs[newest].createTime
    ensures forall q :: q in rest ==> db.runs[q].createTime <= db.runs[newest].createTime
  {
    if rest == {} {
      newest := r;
    } else {
      var q :| q in rest;
      newest := NewestOf(db, rest - {q}, if db.runs[q].createTime > db.runs[r].createTime then q else r);
    }
  }

  /** The pending query always has an answer, one way or the other. */
  lemma PendingIsAnswered(db: Db, host: nat, accepted: Option<seq<string>>)
    ensures NothingPending(db, host, accepted) || exists r :: NewestAcceptable(db, host, accepted, r)
  {
    if r :| AcceptablePending(db, host, accepted, r) {
      var newest := NewestOf(db, (set q | q in db.runs && AcceptablePending(db, host, accepted, q)), r);
      assert NewestAcceptable(db, host, accepted, newest);
    }
  }

  ghost predicate CanSearch(s: Sys, c: nat)
    requires c in s.cands
  {
    exists q :: SearchEnabled(s, c, q)
  }

  ghost predicate CanHandOff(s: Sys, c: nat)
    requires c in s.cands
  {
    exists h :: HandOffEnabled(s, c, h)
  }

  /** The search goes on until there is a run to hand over. */
  lemma SearchGoesOn(s: Sys, c: nat)
    requires c in s.cands && s.cands[c].phase.InFlight() && !s.cands[c].phase.Holds()
    ensures CanSearch(s, c)
  {
    var k := s.cands[c];
    match k.phase
    case Searching =>
      PendingIsAnswered(s.db, k.host, k.accepted);
      if NothingPending(s.db, k.host, k.accepted) {
        assert SearchEnabled(s, c, FindNoPending);
      } else {
        var r :| NewestAcceptable(s.db, k.host, k.accepted, r);
        assert SearchEnabled(s, c, FindPending(r));
      }
    case NoPending =>
      if NoAlternate(s.db, k.host, k.accepted, s.now - DAY_MS) {
        assert SearchEnabled(s, c, FindNothing(s.now));
      } else {
        var j :| j in s.db.jobs && AcceptableAlternate(s.db, k.host, k.accepted, s.now - DAY_MS, j);
        assert SearchEnabled(s, c, FindAlternate(j, s.now));
      }
    case Alternate(_, _, _) => assert SearchEnabled(s, c, InsertAlternate(s.now));
    case Idle => assert SearchEnabled(s, c, Pinged);
  }

  /** A run that is held can be handed over, started, reported on and completed, and its client leave. */
  lemma HandOffGoesOn(s: Sys, c: nat)
    requires c in s.cands && s.cands[c].phase.HasRun()
    ensures s.cands[c].phase.Reported? || CanHandOff(s, c)
    ensures s.cands[c].phase.Reported? || s.cands[c].phase.Working? ==> Enabled(s, World(HangUp(c)))
  {
    match s.cands[c].phase
    case Holding(_, _) => assert HandOffEnabled(s, c, ReadStart);
    case Submitting(_, _, _) => assert HandOffEnabled(s, c, Ack);
    case Acked(_, _, _) => assert HandOffEnabled(s, c, Activate);
    case Working(_) => assert HandOffEnabled(s, c, Status(Outcome(true, "success")));
    case Completing(_, _, _) => assert HandOffEnabled(s, c, Complete);
    case Reported(_) =>
  }

  /** The sweep is over exactly when nothing is left to do, and each step that reaps leaves one fewer. */
  lemma SweepGoesOn(s: Sys)
    ensures (exists r :: SweepEnabled(s, r)) <==> !(s.reaper.Sweeping? && s.reaper.todo == {})
    ensures forall r :: s.reaper.Sweeping? && SweepEnabled(s, r) ==>
              SweepApply(s, r).reaper.Sweeping? && |SweepApply(s, r).reaper.todo| < |s.reaper.todo|
  {
    match s.reaper
    case Waiting => assert SweepEnabled(s, TakeSnapshot);
    case Snapshot(_) => assert SweepEnabled(s, Screen);
    case Screened(_) => assert SweepEnabled(s, Filter);
    case Sweeping(todo, _, _) =>
      if r :| r in todo {
        assert SweepEnabled(s, Reap(r));
      }
  }

  /** Requests with a run's token are let in from its start, and for half an hour unless the row says otherwise. */
  lemma RequestsLetIn(s: Sys, token: nat, run: nat)
    ensures WorldEnabled(s, LookUpToken(token, run)) <==>
            && run in s.db.runs && s.db.runs[run].buildToken == Some(token) && s.db.runs[run].artifactsPath.Some?
            && s.db.runs[run].startTime.Some?
            && s.now <= s.db.runs[run].startTime.value + s.db.runs[run].runTimeout.GetOr(1_800_000)
  {
  }
}

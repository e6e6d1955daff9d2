/**
 At-most-once activation, which nothing in the code sees to.  This says on a single state, reached by
 whatever interleaving, whether a run can be activated twice before the pending query is next answered.
 */
module Claims {
  import opened Common
  import opened Store
  import opened System
  import opened Lifecycle
  import ReaperSafety

  /** A step other than picking a run from the pending query. */
  ghost predicate QuietNext(s: Sys, s': Sys) {
    exists st :: Enabled(s, st) && !(st.Search? && st.q.FindPending?) && s' == Apply(s, st)
  }

  ghost predicate QuietAt(tr: seq<Sys>, i: nat)
    requires i + 1 < |tr|
  {
    QuietNext(tr[i], tr[i + 1])
  }

  ghost predicate QuietFrom(s: Sys, tr: seq<Sys>) {
    |tr| > 0 && tr[0] == s && forall i: nat :: i + 1 < |tr| ==> QuietAt(tr, i)
  }

  /** No client still holds a run that has been activated. */
  ghost predicate HeldNotStarted(cands: map<nat, Candidate>, log: seq<nat>) {
    forall c :: c in cands && cands[c].phase.Holds() ==> cands[c].phase.run !in log
  }

  ghost predicate Safe(s: Sys) {
    NoDuplicates(s.log) && DisjointPicks(s.cands) && HeldNotStarted(s.cands, s.log)
  }

  ghost predicate LogKnown(s: Sys) {
    forall r :: r in s.log ==> r in s.db.runs
  }

  lemma StepKeepsRuns(s: Sys, st: Step)
    requires Enabled(s, st)
    ensures forall r :: r in s.db.runs ==> r in Apply(s, st).db.runs
  {
    StepChange(s, st);
  }

  lemma StepLogs(s: Sys, st: Step)
    requires Enabled(s, st)
    ensures Apply(s, st).log == if st.HandOff? && st.h.Activate? then s.log + [s.cands[st.c].phase.run] else s.log
  {
  }

  lemma NextKeepsLogKnown(s: Sys, s': Sys)
    requires ReaperSafety.Inv(s) && LogKnown(s) && Next(s, s')
    ensures LogKnown(s')
  {
    var st :| Enabled(s, st) && s' == Apply(s, st);
    StepKeepsRuns(s, st);
    StepLogs(s, st);
  }

  /** In every interleaving, only runs there are have been activated. */
  lemma {:induction false} LogKnownAlways(tr: seq<Sys>, i: nat)
    requires Behaviour(tr) && ReaperSafety.Inv(tr[0]) && LogKnown(tr[0]) && i < |tr|
    ensures ReaperSafety.Inv(tr[i]) && LogKnown(tr[i])
  {
    ReaperSafety.InvAlways(tr, i);
    if i > 0 {
      LogKnownAlways(tr, i - 1);
      assert StepAt(tr, i - 1);
      NextKeepsLogKnown(tr[i - 1], tr[i]);
    }
  }

  /** The run that the alternate path makes is one that nobody holds and that was never activated. */
  lemma QuietSearchKeepsSafe(s: Sys, c: nat, q: SearchStep)
    requires ReaperSafety.Inv(s) && LogKnown(s) && Safe(s)
    requires c in s.cands && SearchEnabled(s, c, q) && !q.FindPending?
    ensures Safe(SearchApply(s, c, q))
  {
    var s' := SearchApply(s, c, q);
    if q.InsertAlternate? {
      var r := s.db.nextRun;
      assert r !in s.db.runs;
      assert s'.cands == s.cands[c := s.cands[c].(phase := Holding(r, FromAlternate(s.cands[c].phase.seen, s.cands[c].phase.readAt)))];
    } else {
      assert !s'.cands[c].phase.Holds();
    }
  }

  lemma ActivateKeepsSafe(s: Sys, c: nat)
    requires Safe(s) && c in s.cands && s.cands[c].phase.Acked?
    ensures Safe(HandOffApply(s, c, Activate))
  {
    var r := s.cands[c].phase.run;
    assert HandOffApply(s, c, Activate).log == s.log + [r];
    assert HandOffApply(s, c, Activate).cands == s.cands[c := s.cands[c].(phase := Working(r))];
  }

  lemma HandOffKeepsSafe(s: Sys, c: nat, h: HandOffStep)
    requires Safe(s) && c in s.cands && HandOffEnabled(s, c, h)
    ensures Safe(HandOffApply(s, c, h))
  {
    if h.Activate? {
      ActivateKeepsSafe(s, c);
    } else {
      var s' := HandOffApply(s, c, h);
      assert s'.cands == s.cands[c := s.cands[c].(phase := s'.cands[c].phase)];
      assert s'.cands[c].phase.Holds() ==> s.cands[c].phase.Holds() && s'.cands[c].phase.run == s.cands[c].phase.run;
    }
  }

  lemma WorldKeepsSafe(s: Sys, w: WorldStep)
    requires Safe(s) && WorldEnabled(s, w)
    ensures Safe(WorldApply(s, w))
  {
  }

  lemma SweepKeepsSafe(s: Sys, r: SweepStep)
    requires Safe(s) && SweepEnabled(s, r)
    ensures Safe(SweepApply(s, r))
  {
  }

  lemma QuietStepKeepsSafe(s: Sys, st: Step)
    requires ReaperSafety.Inv(s) && LogKnown(s) && Safe(s)
    requires Enabled(s, st) && !(st.Search? && st.q.FindPending?)
    ensures Safe(Apply(s, st))
  {
    match st
    case Search(c, q) => QuietSearchKeepsSafe(s, c, q);
    case HandOff(c, h) => HandOffKeepsSafe(s, c, h);
    case World(w) => WorldKeepsSafe(s, w);
    case Sweep(r) => SweepKeepsSafe(s, r);
  }

  lemma QuietIsNext(s: Sys, s': Sys)
    requires QuietNext(s, s')
    ensures Next(s, s')
  {
  }

  lemma QuietNextKeepsSafe(s: Sys, s': Sys)
    requires ReaperSafety.Inv(s) && LogKnown(s) && Safe(s) && QuietNext(s, s')
    ensures Safe(s')
  {
    var st :| Enabled(s, st) && !(st.Search? && st.q.FindPending?) && s' == Apply(s, st);
    QuietStepKeepsSafe(s, st);
  }

  lemma {:induction false} QuietKeepsSafe(s: Sys, tr: seq<Sys>, i: nat)
    requires ReaperSafety.Inv(s) && LogKnown(s) && Safe(s) && QuietFrom(s, tr) && i < |tr|
    ensures ReaperSafety.Inv(tr[i]) && LogKnown(tr[i]) && Safe(tr[i])
  {
    if i > 0 {
      QuietKeepsSafe(s, tr, i - 1);
      assert QuietAt(tr, i - 1);
      QuietIsNext(tr[i - 1], tr[i]);
      ReaperSafety.NextKeepsInv(tr[i - 1], tr[i]);
      NextKeepsLogKnown(tr[i - 1], tr[i]);
      QuietNextKeepsSafe(tr[i - 1], tr[i]);
    }
  }

  lemma Prepend(s: Sys, s': Sys, rest: seq<Sys>)
    requires QuietNext(s, s') && QuietFrom(s', rest)
    ensures QuietFrom(s, [s] + rest) && ([s] + rest)[|rest|] == rest[|rest| - 1]
  {
    var tr := [s] + rest;
    forall i: nat | i + 1 < |tr|
      ensures QuietAt(tr, i)
    {
      if i > 0 { assert QuietAt(rest, i - 1); }
    }
  }

  /** A client that has been given a run can acknowledge it, and then the run is activated. */
  lemma {:induction false} CanHandOver(s: Sys, c: nat) returns (tr: seq<Sys>)
    requires c in s.cands && s.cands[c].phase.Holds()
    ensures QuietFrom(s, tr) && tr[|tr| - 1].log == s.log + [s.cands[c].phase.run]
    ensures tr[|tr| - 1].cands.Keys == s.cands.Keys && !tr[|tr| - 1].cands[c].phase.Holds()
    ensures forall d :: d in s.cands && d != c ==> tr[|tr| - 1].cands[d] == s.cands[d]
    decreases if s.cands[c].phase.Holding? then 2 else if s.cands[c].phase.Submitting? then 1 else 0
  {
    var h := if s.cands[c].phase.Holding? then ReadStart else if s.cands[c].phase.Submitting? then Ack else Activate;
    assert Enabled(s, HandOff(c, h));
    var s' := Apply(s, HandOff(c, h));
    assert QuietNext(s, s');
    if h.Activate? {
      tr := [s, s'];
    } else {
      var rest := CanHandOver(s', c);
      Prepend(s, s', rest);
      tr := [s] + rest;
      assert s'.cands.Keys == s.cands.Keys;
    }
  }

  lemma ContestedRunStartsTwice(s: Sys, c: nat, d: nat) returns (tr: seq<Sys>)
    requires c in s.cands && d in s.cands && c != d && s.cands[c].phase.Holds() && s.cands[d].phase.Holds()
    requires s.cands[c].phase.run == s.cands[d].phase.run
    ensures QuietFrom(s, tr) && !NoDuplicates(tr[|tr| - 1].log)
  {
    var first := CanHandOver(s, c);
    var m := first[|first| - 1];
    var second := CanHandOver(m, d);
    tr := first + second[1..];
    forall i: nat | i + 1 < |tr| ensures QuietAt(tr, i) {
      if i + 1 < |first| { assert QuietAt(first, i); } else { assert QuietAt(second, i + 1 - |first|); }
    }
    var log := tr[|tr| - 1].log;
    assert log[|log| - 2] == log[|log| - 1];
  }

  /** A client that holds a run which has been activated can have it activated again. */
  lemma StartedRunStartsAgain(s: Sys, c: nat) returns (tr: seq<Sys>)
    requires c in s.cands && s.cands[c].phase.Holds() && s.cands[c].phase.run in s.log
    ensures QuietFrom(s, tr) && !NoDuplicates(tr[|tr| - 1].log)
  {
    tr := CanHandOver(s, c);
    var i :| 0 <= i < |s.log| && s.log[i] == s.cands[c].phase.run;
    var log := tr[|tr| - 1].log;
    assert log[i] == log[|s.log|];
  }

  /**
   Exactly when at-most-once activation is in danger.  If no run has been activated twice, no two clients
   hold the same run, and none holds a run that was activated already, then no run is activated twice
   until the pending query is answered again; if any of these fails, it has happened or can.
   */
  lemma AtMostOnceExactly(s: Sys)
    requires ReaperSafety.Inv(s) && LogKnown(s)
    ensures Safe(s) <==> forall tr: seq<Sys> :: QuietFrom(s, tr) ==> NoDuplicates(tr[|tr| - 1].log)
  {
    if Safe(s) {
      forall tr: seq<Sys> | QuietFrom(s, tr)
        ensures NoDuplicates(tr[|tr| - 1].log)
      {
        QuietKeepsSafe(s, tr, |tr| - 1);
      }
    } else if !NoDuplicates(s.log) {
      assert QuietFrom(s, [s]);
    } else if !DisjointPicks(s.cands) {
      var c, d :| c in s.cands && d in s.cands && c != d && s.cands[c].phase.Holds() && s.cands[d].phase.Holds()
        && s.cands[c].phase.run == s.cands[d].phase.run;
      var tr := ContestedRunStartsTwice(s, c, d);
    } else {
      var c :| c in s.cands && s.cands[c].phase.Holds() && s.cands[c].phase.run in s.log;
      var tr := StartedRunStartsAgain(s, c);
    }
  }

  /** So it is for every state that any interleaving leads to from empty tables. */
  lemma AtMostOnceInEveryState(tr: seq<Sys>, i: nat)
    requires Behaviour(tr) && Init(tr[0]) && i < |tr|
    ensures Safe(tr[i]) <==> forall more: seq<Sys> :: QuietFrom(tr[i], more) ==> NoDuplicates(more[|more| - 1].log)
  {
    InitOk(tr[0]);
    LogKnownAlways(tr, i);
    AtMostOnceExactly(tr[i]);
  }

  lemma Join(tr: seq<Sys>, quiet: seq<Sys>)
    requires Behaviour(tr) && QuietFrom(tr[|tr| - 1], quiet)
    ensures Behaviour(tr + quiet[1..])
  {
    var both := tr + quiet[1..];
    forall i: nat | i + 1 < |both|
      ensures StepAt(both, i)
    {
      if i + 1 < |tr| { assert StepAt(tr, i); } else { assert QuietAt(quiet, i + 1 - |tr|); }
    }
  }

  /** One push and two hosts that both ask before either is recorded: both can hold the new run. */
  lemma TwoHostsOnePush(s0: Sys) returns (tr: seq<Sys>)
    requires Init(s0)
    ensures Behaviour(tr) && tr[0] == s0
    ensures var s := tr[|tr| - 1];
            s.cands.Keys == {1, 2} && s.log == [] && s.cands[1].host != s.cands[2].host &&
            s.cands[1].phase.Holding? && s.cands[2].phase.Holding? && s.cands[1].phase.run == s.cands[2].phase.run
  {
    var s1 := Apply(s0, World(AddJob(Job(1, 1, 0, None, None))));
    Extend([s0], World(AddJob(Job(1, 1, 0, None, None))));
    var s2 := Apply(s1, World(AddRun(1, 0)));
    Extend([s0, s1], World(AddRun(1, 0)));
    assert [s0, s1] + [s2] == [s0, s1, s2];
    var s3 := Apply(s2, World(Connect(1, 1, None, 1)));
    Extend([s0, s1, s2], World(Connect(1, 1, None, 1)));
    assert [s0, s1, s2] + [s3] == [s0, s1, s2, s3];
    var s4 := Apply(s3, World(Connect(2, 2, None, 2)));
    Extend([s0, s1, s2, s3], World(Connect(2, 2, None, 2)));
    assert [s0, s1, s2, s3] + [s4] == [s0, s1, s2, s3, s4];
    assert NewestAcceptable(s4.db, 1, None, 1) && NewestAcceptable(s4.db, 2, None, 1);
    var s5 := Apply(s4, Search(1, FindPending(1)));
    Extend([s0, s1, s2, s3, s4], Search(1, FindPending(1)));
    assert [s0, s1, s2, s3, s4] + [s5] == [s0, s1, s2, s3, s4, s5];
    var s6 := Apply(s5, Search(2, FindPending(1)));
    Extend([s0, s1, s2, s3, s4, s5], Search(2, FindPending(1)));
    tr := [s0, s1, s2, s3, s4, s5] + [s6];
  }

  /** So the code does not promise at-most-once activation on its own. */
  lemma ARunCanStartTwice(s0: Sys) returns (tr: seq<Sys>)
    requires Init(s0)
    ensures Behaviour(tr) && tr[0] == s0 && !NoDuplicates(tr[|tr| - 1].log)
  {
    var setup := TwoHostsOnePush(s0);
    var quiet := ContestedRunStartsTwice(setup[|setup| - 1], 1, 2);
    Join(setup, quiet);
    tr := setup + quiet[1..];
    assert tr[|tr| - 1] == quiet[|quiet| - 1];
  }

  /** And disjoint picks alone are not enough: the other client can still hold a run that one has started. */
  lemma OneStartedOneHolds(s0: Sys) returns (tr: seq<Sys>)
    requires Init(s0)
    ensures Behaviour(tr) && tr[0] == s0
    ensures var s := tr[|tr| - 1];
            NoDuplicates(s.log) && DisjointPicks(s.cands) && !HeldNotStarted(s.cands, s.log)
  {
    var setup := TwoHostsOnePush(s0);
    var s := setup[|setup| - 1];
    var quiet := CanHandOver(s, 1);
    Join(setup, quiet);
    tr := setup + quiet[1..];
    var e := tr[|tr| - 1];
    assert e == quiet[|quiet| - 1];
    assert e.log == [s.cands[1].phase.run];
  }
}

/**
 How often a host is made to rerun a job.  With at most one client of each host looking for work, the
 alternate path never makes a second run of a job for the same host; the code does not see to that, and
 the last part says exactly when a second run can be made.
 */
module Alternates {
  import opened Common
  import opened Store
  import opened System
  import opened Placement
  import ReaperSafety

  ghost predicate OneSearchPerHost(cands: map<nat, Candidate>) {
    forall c, d :: c in cands && d in cands && c != d && cands[c].phase.InFlight() && cands[d].phase.InFlight() ==>
      cands[c].host != cands[d].host
  }

  /** A run made for a host is either still waiting for it or carries it. */
  predicate PinnedRow(row: Run) {
    row.hostPreference.Some? ==> row.hostId == if row.state == Pending then None else row.hostPreference
  }

  ghost predicate PinnedRows(runs: map<nat, Run>) {
    forall r :: r in runs ==> PinnedRow(runs[r])
  }

  /** Only the alternate path gives a run a host preference, so this bounds the runs it makes. */
  ghost predicate OneAlternate(runs: map<nat, Run>) {
    forall r, q :: r in runs && q in runs && r != q && runs[r].hostPreference.Some? && runs[r].jobId == runs[q].jobId ==>
      runs[r].hostPreference != runs[q].hostPreference
  }

  /** What a client knows of the runs made for its host, while it is on the alternate path. */
  ghost predicate KnowsPinned(db: Db, k: Candidate) {
    && (k.phase.NoPending? ==>
         forall r :: r in db.runs && db.runs[r].hostPreference == Some(k.host) ==>
           !AcceptablePending(db, k.host, k.accepted, r))
    && (k.phase.Alternate? ==>
         forall r :: r in db.runs && db.runs[r].hostPreference == Some(k.host) ==> db.runs[r].jobId != k.phase.job)
    && (k.phase.Listening() ==> k.phase.run in db.runs && db.runs[k.phase.run].state != Pending)
  }

  ghost predicate AllKnow(db: Db, cands: map<nat, Candidate>) {
    forall c :: c in cands ==> KnowsPinned(db, cands[c])
  }

  ghost predicate Distinct(s: Sys) {
    PinnedRows(s.db.runs) && OneAlternate(s.db.runs) && AllKnow(s.db, s.cands)
  }

  /** A client moves on without the tables changing. */
  lemma MoveKeepsKnowledge(db: Db, cands: map<nat, Candidate>, c: nat, phase: Phase)
    requires AllKnow(db, cands) && c in cands && KnowsPinned(db, cands[c].(phase := phase))
    ensures AllKnow(db, cands[c := cands[c].(phase := phase)])
  {
  }

  /** Activation, completion and reaping: a row that leaves Pending, or has left it, stays pinned. */
  lemma RowChangeKeepsDistinct(db: Db, cands: map<nat, Candidate>, r: nat, row: Run)
    requires PinnedRows(db.runs) && OneAlternate(db.runs) && AllKnow(db, cands) && r in db.runs
    requires row.state != Pending && PinnedRow(row)
    requires row.jobId == db.runs[r].jobId && row.hostPreference == db.runs[r].hostPreference
    ensures PinnedRows(db.SetRun(r, row).runs) && OneAlternate(db.SetRun(r, row).runs) && AllKnow(db.SetRun(r, row), cands)
  {
    var db' := db.SetRun(r, row);
    forall c | c in cands
      ensures KnowsPinned(db', cands[c])
    {
      assert KnowsPinned(db, cands[c]);
      forall q | AcceptablePending(db', cands[c].host, cands[c].accepted, q)
        ensures AcceptablePending(db, cands[c].host, cands[c].accepted, q)
      {
      }
    }
  }

  lemma WorldKeepsDistinct(s: Sys, w: WorldStep)
    requires s.db.Valid() && Distinct(s) && WorldEnabled(s, w)
    ensures Distinct(WorldApply(s, w))
  {
  }

  /** On the alternate path, a client of host h has met every pending run made for h that it accepts. */
  lemma NoneMadeYet(db: Db, k: Candidate, j: nat, readAt: nat)
    requires PinnedRows(db.runs) && KnowsPinned(db, k) && k.phase.NoPending?
    requires AcceptableAlternate(db, k.host, k.accepted, readAt - DAY_MS, j)
    ensures KnowsPinned(db, k.(phase := Alternate(j, db, readAt)))
    ensures forall r :: r in db.runs && db.runs[r].jobId == j ==>
              db.runs[r].hostPreference != Some(k.host) && db.runs[r].hostId != Some(k.host)
  {
    forall r | r in db.runs && db.runs[r].hostPreference == Some(k.host)
      ensures db.runs[r].jobId != j
    {
      assert !AcceptablePending(db, k.host, k.accepted, r);
      assert PinnedRow(db.runs[r]);
    }
  }

  /** A client on the alternate path looks at runs of its own host only. */
  lemma InsertKeepsKnowledge(db: Db, k: Candidate, row: Run)
    requires db.Valid() && KnowsPinned(db, k)
    requires k.phase.InFlight() ==> row.hostPreference.Some? && row.hostPreference != Some(k.host)
    ensures KnowsPinned(db.InsertRun(row), k)
  {
    var db' := db.InsertRun(row);
    assert forall r :: r in db.runs && AcceptablePending(db', k.host, k.accepted, r) ==> AcceptablePending(db, k.host, k.accepted, r);
  }

  lemma InsertKeepsDistinct(s: Sys, c: nat, q: SearchStep)
    requires s.db.Valid() && Distinct(s) && OneSearchPerHost(s.cands)
    requires c in s.cands && q.InsertAlternate? && SearchEnabled(s, c, q)
    ensures Distinct(SearchApply(s, c, q))
  {
    var s' := SearchApply(s, c, q);
    assert KnowsPinned(s.db, s.cands[c]);
    assert PinnedRows(s'.db.runs) && OneAlternate(s'.db.runs);
    forall d | d in s'.cands
      ensures KnowsPinned(s'.db, s'.cands[d])
    {
      if d != c {
        InsertKeepsKnowledge(s.db, s.cands[d], PendingRow(s.cands[c].phase.job, Some(s.cands[c].host), q.created));
      }
    }
  }

  lemma SearchKeepsDistinct(s: Sys, c: nat, q: SearchStep)
    requires s.db.Valid() && Distinct(s) && OneSearchPerHost(s.cands)
    requires c in s.cands && SearchEnabled(s, c, q)
    ensures Distinct(SearchApply(s, c, q))
  {
    match q
    case FindPending(run) => MoveKeepsKnowledge(s.db, s.cands, c, Holding(run, FromPending(s.db)));
    case FindNoPending => MoveKeepsKnowledge(s.db, s.cands, c, NoPending);
    case FindAlternate(j, readAt) =>
      assert KnowsPinned(s.db, s.cands[c]);
      NoneMadeYet(s.db, s.cands[c], j, readAt);
      MoveKeepsKnowledge(s.db, s.cands, c, Alternate(j, s.db, readAt));
    case FindNothing(_) => MoveKeepsKnowledge(s.db, s.cands, c, Idle);
    case InsertAlternate(_) => InsertKeepsDistinct(s, c, q);
    case Pinged => MoveKeepsKnowledge(s.db, s.cands, c, Searching);
  }

  lemma HandOffKeepsDistinct(s: Sys, c: nat, h: HandOffStep)
    requires s.db.Valid() && HoldersOk(s.db, s.cands) && Distinct(s) && c in s.cands && HandOffEnabled(s, c, h)
    ensures Distinct(HandOffApply(s, c, h))
  {
    var k, p, s' := s.cands[c], s.cands[c].phase, HandOffApply(s, c, h);
    assert KnowsPinned(s.db, k);
    if h.Activate? {
      RowChangeKeepsDistinct(s.db, s.cands, p.run, Activated(s.db.runs[p.run], p.run, k.host, k.token, p.start));
    } else if h.Complete? {
      assert PinnedRow(s.db.runs[p.run]);
      RowChangeKeepsDistinct(s.db, s.cands, p.run, Completed(s.db.runs[p.run], p.at, p.outcome));
    }
    MoveKeepsKnowledge(s'.db, s.cands, c, s'.cands[c].phase);
  }

  lemma SweepKeepsDistinct(s: Sys, r: SweepStep)
    requires ReaperSafety.Inv(s) && Distinct(s) && SweepEnabled(s, r)
    ensures Distinct(SweepApply(s, r))
  {
    if r.Reap? {
      assert r.run in ReaperSafety.Orphans(s.boot, s.reaper.at);
      assert PinnedRow(s.db.runs[r.run]);
      RowChangeKeepsDistinct(s.db, s.cands, r.run, Reaped(s.db.runs[r.run]));
    }
  }

  lemma NextKeepsDistinct(s: Sys, s': Sys)
    requires ReaperSafety.Inv(s) && HoldersOk(s.db, s.cands) && Distinct(s) && OneSearchPerHost(s.cands) && Next(s, s')
    ensures Distinct(s')
  {
    var st :| Enabled(s, st) && s' == Apply(s, st);
    match st
    case World(w) => WorldKeepsDistinct(s, w);
    case Search(c, q) => SearchKeepsDistinct(s, c, q);
    case HandOff(c, h) => HandOffKeepsDistinct(s, c, h);
    case Sweep(r) => SweepKeepsDistinct(s, r);
  }

  lemma {:induction false} DistinctAlways(tr: seq<Sys>, i: nat)
    requires Behaviour(tr) && Init(tr[0]) && i < |tr|
    requires forall k :: 0 <= k < i ==> OneSearchPerHost(tr[k].cands)
    ensures Distinct(tr[i])
  {
    if i > 0 {
      DistinctAlways(tr, i - 1);
      PlacedAlways(tr, i - 1);
      ReaperSafety.InvAlways(tr, i - 1);
      assert StepAt(tr, i - 1);
      NextKeepsDistinct(tr[i - 1], tr[i]);
    }
  }

  /**
   Over any pushes, failed hand-offs, crashes and clients with differing accepted sources: while each
   host has at most one client looking for work, no job gets two alternate runs for the same host.
   */
  lemma AlternatesAreNotDuplicated(tr: seq<Sys>, i: nat, r: nat, q: nat)
    requires Behaviour(tr) && Init(tr[0]) && i < |tr|
    requires forall k :: 0 <= k < i ==> OneSearchPerHost(tr[k].cands)
    requires r in tr[i].db.runs && q in tr[i].db.runs && tr[i].db.runs[r].jobId == tr[i].db.runs[q].jobId
    requires tr[i].db.runs[r].hostPreference.Some? && tr[i].db.runs[r].hostPreference == tr[i].db.runs[q].hostPreference
    ensures r == q
  {
    DistinctAlways(tr, i);
  }

  // ---- When alternate runs can be duplicated ----

  /** No two clients are about to make a run of the same job for the same host. */
  ghost predicate DistinctChoices(cands: map<nat, Candidate>) {
    forall c, d :: c in cands && d in cands && c != d && cands[c].phase.Alternate? && cands[d].phase.Alternate? ==>
      cands[c].host != cands[d].host || cands[c].phase.job != cands[d].phase.job
  }

  /** What a client is about to make has not been made yet. */
  ghost predicate ChoicesNew(runs: map<nat, Run>, cands: map<nat, Candidate>) {
    forall c, r :: c in cands && cands[c].phase.Alternate? && r in runs && runs[r].hostPreference == Some(cands[c].host) ==>
      runs[r].jobId != cands[c].phase.job
  }

  /** A step other than choosing a job for an alternate run. */
  ghost predicate SettledNext(s: Sys, s': Sys) {
    exists st :: Enabled(s, st) && !(st.Search? && st.q.FindAlternate?) && s' == Apply(s, st)
  }

  ghost predicate SettledAt(tr: seq<Sys>, i: nat)
    requires i + 1 < |tr|
  {
    SettledNext(tr[i], tr[i + 1])
  }

  ghost predicate SettledFrom(s: Sys, tr: seq<Sys>) {
    |tr| > 0 && tr[0] == s && forall i: nat :: i + 1 < |tr| ==> SettledAt(tr, i)
  }

  /** No job has two runs made for a host, no client is about to make one that exists, nor two clients the same. */
  ghost predicate Safe(s: Sys) {
    OneAlternate(s.db.runs) && ChoicesNew(s.db.runs, s.cands) && DistinctChoices(s.cands)
  }

  ghost predicate Settled(s: Sys) {
    s.db.Valid() && Safe(s)
  }

  /** Rows change, but not whom they were made for. */
  ghost predicate SamePins(runs: map<nat, Run>, runs': map<nat, Run>) {
    runs'.Keys == runs.Keys &&
    forall r :: r in runs ==> runs'[r].jobId == runs[r].jobId && runs'[r].hostPreference == runs[r].hostPreference
  }

  ghost predicate NoNewChoices(cands: map<nat, Candidate>, cands': map<nat, Candidate>) {
    forall c :: c in cands' && cands'[c].phase.Alternate? ==> c in cands && cands[c] == cands'[c]
  }

  lemma SamePinsKeepSettled(runs: map<nat, Run>, runs': map<nat, Run>, cands: map<nat, Candidate>, cands': map<nat, Candidate>)
    requires OneAlternate(runs) && ChoicesNew(runs, cands) && DistinctChoices(cands)
    requires SamePins(runs, runs') && NoNewChoices(cands, cands')
    ensures OneAlternate(runs') && ChoicesNew(runs', cands') && DistinctChoices(cands')
  {
  }

  lemma SearchSettles(s: Sys, c: nat, q: SearchStep)
    requires c in s.cands && SearchEnabled(s, c, q) && !q.FindAlternate?
    ensures NoNewChoices(s.cands, SearchApply(s, c, q).cands)
  {
    assert !SearchApply(s, c, q).cands[c].phase.Alternate?;
  }

  lemma HandOffSettles(s: Sys, c: nat, h: HandOffStep)
    requires c in s.cands && HandOffEnabled(s, c, h)
    ensures NoNewChoices(s.cands, HandOffApply(s, c, h).cands)
  {
    assert !HandOffApply(s, c, h).cands[c].phase.Alternate?;
  }

  lemma WorldSettles(s: Sys, w: WorldStep)
    requires WorldEnabled(s, w)
    ensures NoNewChoices(s.cands, WorldApply(s, w).cands)
  {
  }

  lemma StepSettles(s: Sys, st: Step)
    requires Enabled(s, st) && !(st.Search? && st.q.FindAlternate?)
    ensures NoNewChoices(s.cands, Apply(s, st).cands)
  {
    match st
    case World(w) => WorldSettles(s, w);
    case Search(c, q) => SearchSettles(s, c, q);
    case HandOff(c, h) => HandOffSettles(s, c, h);
    case Sweep(r) =>
  }

  lemma StepPins(s: Sys, st: Step)
    requires s.db.Valid() && Enabled(s, st) && !ChangeOf(s, st).Inserted?
    ensures SamePins(s.db.runs, Apply(s, st).db.runs)
  {
    StepChange(s, st);
  }

  lemma PushKeepsSettled(s: Sys, jobId: nat, created: nat)
    requires Settled(s)
    ensures var runs := s.db.InsertRun(PendingRow(jobId, None, created)).runs;
            OneAlternate(runs) && ChoicesNew(runs, s.cands)
  {
  }

  lemma InsertKeepsSettled(s: Sys, c: nat, q: SearchStep)
    requires Settled(s) && c in s.cands && q.InsertAlternate? && SearchEnabled(s, c, q)
    ensures OneAlternate(SearchApply(s, c, q).db.runs)
    ensures ChoicesNew(SearchApply(s, c, q).db.runs, SearchApply(s, c, q).cands)
    ensures DistinctChoices(SearchApply(s, c, q).cands)
  {
  }

  lemma StepKeepsSettled(s: Sys, st: Step)
    requires Settled(s) && Enabled(s, st) && !(st.Search? && st.q.FindAlternate?) && Apply(s, st).db.Valid()
    ensures Settled(Apply(s, st))
  {
    StepSettles(s, st);
    if st.Search? && st.q.InsertAlternate? {
      InsertKeepsSettled(s, st.c, st.q);
    } else if st.World? && st.w.AddRun? {
      PushKeepsSettled(s, st.w.jobId, st.w.created);
    } else {
      StepPins(s, st);
      SamePinsKeepSettled(s.db.runs, Apply(s, st).db.runs, s.cands, Apply(s, st).cands);
    }
  }

  lemma SettledNextKeeps(s: Sys, s': Sys)
    requires ReaperSafety.Inv(s) && Settled(s) && SettledNext(s, s')
    ensures ReaperSafety.Inv(s') && Settled(s')
  {
    var st :| Enabled(s, st) && !(st.Search? && st.q.FindAlternate?) && s' == Apply(s, st);
    ReaperSafety.StepKeepsInv(s, st);
    StepKeepsSettled(s, st);
  }

  lemma {:induction false} SettledAlways(s: Sys, tr: seq<Sys>, i: nat)
    requires ReaperSafety.Inv(s) && Settled(s) && SettledFrom(s, tr) && i < |tr|
    ensures ReaperSafety.Inv(tr[i]) && Settled(tr[i])
  {
    if i > 0 {
      SettledAlways(s, tr, i - 1);
      assert SettledAt(tr, i - 1);
      SettledNextKeeps(tr[i - 1], tr[i]);
    }
  }

  /** A client that is about to make a run that another has made since it chose makes a second one. */
  lemma InsertAfterAnother(s: Sys, c: nat, r: nat) returns (tr: seq<Sys>)
    requires s.db.nextRun !in s.db.runs && c in s.cands && s.cands[c].phase.Alternate?
    requires r in s.db.runs && s.db.runs[r].hostPreference == Some(s.cands[c].host) && s.db.runs[r].jobId == s.cands[c].phase.job
    ensures SettledFrom(s, tr) && !OneAlternate(tr[|tr| - 1].db.runs)
  {
    var st := Search(c, InsertAlternate(s.now));
    var s' := Apply(s, st);
    assert SettledNext(s, s');
    tr := [s, s'];
    assert s'.db.runs[s.db.nextRun].hostPreference == s'.db.runs[r].hostPreference;
  }

  lemma BothInsert(s: Sys, c: nat, d: nat) returns (tr: seq<Sys>)
    requires s.db.Valid()
    requires c in s.cands && d in s.cands && c != d && s.cands[c].phase.Alternate? && s.cands[d].phase.Alternate?
    requires s.cands[c].host == s.cands[d].host && s.cands[c].phase.job == s.cands[d].phase.job
    ensures SettledFrom(s, tr) && !OneAlternate(tr[|tr| - 1].db.runs)
  {
    var m := Apply(s, Search(c, InsertAlternate(s.now)));
    assert SettledNext(s, m);
    assert m.db.runs[s.db.nextRun].hostPreference == Some(m.cands[d].host);
    var rest := InsertAfterAnother(m, d, s.db.nextRun);
    tr := [s] + rest;
    forall i: nat | i + 1 < |tr|
      ensures SettledAt(tr, i)
    {
      if i > 0 { assert SettledAt(rest, i - 1); }
    }
  }

  /**
   Exactly when a job can be given two runs for one host before the next job is chosen for an alternate
   run, in any state that any interleaving leads to.
   */
  lemma OneAlternateExactly(s: Sys)
    requires ReaperSafety.Inv(s)
    ensures Safe(s) <==> forall tr: seq<Sys> :: SettledFrom(s, tr) ==> OneAlternate(tr[|tr| - 1].db.runs)
  {
    if Safe(s) {
      forall tr: seq<Sys> | SettledFrom(s, tr)
        ensures OneAlternate(tr[|tr| - 1].db.runs)
      {
        SettledAlways(s, tr, |tr| - 1);
      }
    } else if !OneAlternate(s.db.runs) {
      assert SettledFrom(s, [s]);
    } else if !DistinctChoices(s.cands) {
      var c, d :| c in s.cands && d in s.cands && c != d && s.cands[c].phase.Alternate? && s.cands[d].phase.Alternate?
        && s.cands[c].host == s.cands[d].host && s.cands[c].phase.job == s.cands[d].phase.job;
      var tr := BothInsert(s, c, d);
    } else {
      var c, r :| c in s.cands && s.cands[c].phase.Alternate? && r in s.db.runs
        && s.db.runs[r].hostPreference == Some(s.cands[c].host) && s.db.runs[r].jobId == s.cands[c].phase.job;
      var tr := InsertAfterAnother(s, c, r);
    }
  }

  /** Two clients of one host, a job for all hosts, and nothing pending. */
  lemma BothLook(s0: Sys) returns (tr: seq<Sys>)
    requires Init(s0)
    ensures Behaviour(tr) && tr[0] == s0
    ensures var s := tr[|tr| - 1];
            && s.db.Valid() && s.cands.Keys == {1, 2} && s.db.runs == map[] && s.cands[1].phase.NoPending? && s.cands[2].phase.NoPending?
            && s.cands[1].host == s.cands[2].host
            && AcceptableAlternate(s.db, s.cands[1].host, s.cands[1].accepted, s.now - DAY_MS, 1)
            && AcceptableAlternate(s.db, s.cands[2].host, s.cands[2].accepted, s.now - DAY_MS, 1)
  {
    var job := World(AddJob(Job(1, 1, s0.now, None, Some("all"))));
    var s1 := Apply(s0, job);
    Extend([s0], job);
    var s2 := Apply(s1, World(Connect(1, 7, None, 1)));
    Extend([s0] + [s1], World(Connect(1, 7, None, 1)));
    var s3 := Apply(s2, World(Connect(2, 7, None, 2)));
    Extend([s0] + [s1] + [s2], World(Connect(2, 7, None, 2)));
    assert NothingPending(s3.db, 7, None);
    var s4 := Apply(s3, Search(1, FindNoPending));
    Extend([s0] + [s1] + [s2] + [s3], Search(1, FindNoPending));
    var s5 := Apply(s4, Search(2, FindNoPending));
    Extend([s0] + [s1] + [s2] + [s3] + [s4], Search(2, FindNoPending));
    tr := [s0] + [s1] + [s2] + [s3] + [s4] + [s5];
  }

  lemma Join(tr: seq<Sys>, more: seq<Sys>)
    requires Behaviour(tr) && SettledFrom(tr[|tr| - 1], more)
    ensures Behaviour(tr + more[1..])
  {
    var both := tr + more[1..];
    forall i: nat | i + 1 < |both|
      ensures StepAt(both, i)
    {
      if i + 1 < |tr| { assert StepAt(tr, i); } else { assert SettledAt(more, i + 1 - |tr|); }
    }
  }

  /** Two clients of one host that search at once do get there. */
  lemma TwoClientsOneHost(s0: Sys) returns (tr: seq<Sys>)
    requires Init(s0)
    ensures Behaviour(tr) && tr[0] == s0 && !OneAlternate(tr[|tr| - 1].db.runs)
  {
    var looked := BothLook(s0);
    var s := looked[|looked| - 1];
    var one, two := Search(1, FindAlternate(1, s.now)), Search(2, FindAlternate(1, s.now));
    var m := Apply(s, one);
    Extend(looked, one);
    var e := Apply(m, two);
    Extend(looked + [m], two);
    var last := BothInsert(e, 1, 2);
    var chosen := looked + [m] + [e];
    Join(chosen, last);
    tr := chosen + last[1..];
    assert tr[|tr| - 1] == last[|last| - 1];
  }

  /**
   Distinct choices alone are not enough: the second client can choose the job after the first has made a
   run of it, since that run does not carry the host yet.
   */
  lemma ChosenAfterMade(s0: Sys) returns (tr: seq<Sys>)
    requires Init(s0)
    ensures Behaviour(tr) && tr[0] == s0
    ensures var s := tr[|tr| - 1];
            OneAlternate(s.db.runs) && DistinctChoices(s.cands) && !ChoicesNew(s.db.runs, s.cands)
  {
    var looked := BothLook(s0);
    var s := looked[|looked| - 1];
    var one, made, two := Search(1, FindAlternate(1, s.now)), Search(1, InsertAlternate(s.now)), Search(2, FindAlternate(1, s.now));
    var m := Apply(s, one);
    Extend(looked, one);
    var n := Apply(m, made);
    Extend(looked + [m], made);
    StillNeedsRun(s, n);
    var e := Apply(n, two);
    Extend(looked + [m] + [n], two);
    tr := looked + [m] + [n] + [e];
    assert e.db.runs[s.db.nextRun].hostPreference == Some(e.cands[2].host);
  }

  /** A run made for a host does not count as a run on it before it starts. */
  lemma StillNeedsRun(s: Sys, n: Sys)
    requires 1 in s.cands && 2 in s.cands && n.now == s.now && n.db.jobs == s.db.jobs
    requires AcceptableAlternate(s.db, s.cands[2].host, s.cands[2].accepted, s.now - DAY_MS, 1)
    requires n.db == s.db.InsertRun(PendingRow(1, Some(s.cands[1].host), s.now))
    ensures AcceptableAlternate(n.db, s.cands[2].host, s.cands[2].accepted, s.now - DAY_MS, 1)
  {
  }
}

/**
 Pushes of commits.  A push looks for its sha; if that is new, it records the commit, then the job, then
 the run, in three critical sections between which other pushes may come.
 */
module Commits {
  import opened Common

  /** Where a push that found its sha to be new has got to. */
  datatype Phase = Checked(sha: string) | Recorded(commit: nat) | HasJob(job: nat)

  /**
   Ids count from 1: commit `c` is `shas[c - 1]`, job `j` is for commit `jobs[j - 1]` and run `r` is of
   job `runs[r - 1]`.  A panic while the connection is locked poisons the lock for good.
   */
  datatype State = State(shas: seq<string>, jobs: seq<nat>, runs: seq<nat>, pushes: map<nat, Phase>, poisoned: bool)

  const START := State([], [], [], map[], false)

  datatype Step =
    | Check(p: nat, sha: string)
    | NewCommit(p: nat)
    | NewJob(p: nat)
    | NewRun(p: nat)

  predicate Enabled(s: State, st: Step) {
    && !s.poisoned
    && match st
       case Check(p, sha) => p !in s.pushes
       case NewCommit(p) => p in s.pushes && s.pushes[p].Checked?
       case NewJob(p) => p in s.pushes && s.pushes[p].Recorded?
       case NewRun(p) => p in s.pushes && s.pushes[p].HasJob?
  }

  function Apply(s: State, st: Step): State
    requires Enabled(s, st)
  {
    match st
    case Check(p, sha) =>
      if sha in s.shas then s else s.(pushes := s.pushes[p := Checked(sha)])
    case NewCommit(p) =>
      // the column is UNIQUE, and the failing insertion is unwrapped
      if s.pushes[p].sha in s.shas then
        s.(poisoned := true)
      else
        s.(shas := s.shas + [s.pushes[p].sha], pushes := s.pushes[p := Recorded(|s.shas| + 1)])
    case NewJob(p) =>
      s.(jobs := s.jobs + [s.pushes[p].commit], pushes := s.pushes[p := HasJob(|s.jobs| + 1)])
    case NewRun(p) =>
      s.(runs := s.runs + [s.pushes[p].job], pushes := s.pushes - {p})
  }

  /** `trace[i]` is the state before step `i`. */
  ghost predicate Behaviour(trace: seq<State>, steps: seq<Step>) {
    && |trace| == |steps| + 1 && trace[0] == START
    && forall i :: 0 <= i < |steps| ==> StepAt(trace, steps, i)
  }

  ghost predicate StepAt(trace: seq<State>, steps: seq<Step>, i: nat)
    requires i < |steps| && |trace| == |steps| + 1
  {
    Enabled(trace[i], steps[i]) && trace[i + 1] == Apply(trace[i], steps[i])
  }

  // ---- Nothing is lost and nothing is doubled ----

  ghost predicate Waiting(pushes: map<nat, Phase>, phase: Phase) {
    exists p :: p in pushes && pushes[p] == phase
  }

  /** Each recorded commit has one job or one push about to make it. */
  ghost predicate CommitsInv(commits: nat, jobs: seq<nat>, pushes: map<nat, Phase>) {
    && NoDuplicates(jobs)
    && (forall c :: c in jobs ==> 1 <= c <= commits && !Waiting(pushes, Recorded(c)))
    && (forall c: nat :: 1 <= c <= commits ==> c in jobs || Waiting(pushes, Recorded(c)))
    && (forall p :: p in pushes && pushes[p].Recorded? ==> 1 <= pushes[p].commit <= commits)
    && (forall p, q :: p in pushes && q in pushes && pushes[p].Recorded? && pushes[p] == pushes[q] ==> p == q)
  }

  /** And each job has one run or one push about to make it. */
  ghost predicate JobsInv(jobs: nat, runs: seq<nat>, pushes: map<nat, Phase>) {
    && NoDuplicates(runs)
    && (forall j :: j in runs ==> 1 <= j <= jobs && !Waiting(pushes, HasJob(j)))
    && (forall j: nat :: 1 <= j <= jobs ==> j in runs || Waiting(pushes, HasJob(j)))
    && (forall p :: p in pushes && pushes[p].HasJob? ==> 1 <= pushes[p].job <= jobs)
    && (forall p, q :: p in pushes && q in pushes && pushes[p].HasJob? && pushes[p] == pushes[q] ==> p == q)
  }

  ghost predicate Inv(s: State) {
    && NoDuplicates(s.shas)
    && CommitsInv(|s.shas|, s.jobs, s.pushes)
    && JobsInv(|s.jobs|, s.runs, s.pushes)
  }

  /** A push moves on; the phases that others wait in are untouched. */
  lemma Moved(pushes: map<nat, Phase>, p: nat, next: Option<Phase>, pushes': map<nat, Phase>, phase: Phase)
    requires pushes' == if next.Some? then pushes[p := next.value] else pushes - {p}
    requires p !in pushes || pushes[p] != phase
    ensures Waiting(pushes', phase) <==> Waiting(pushes, phase) || next == Some(phase)
  {
    if Waiting(pushes, phase) {
      var q :| q in pushes && pushes[q] == phase;
      assert q in pushes' && pushes'[q] == phase;
    }
    if next == Some(phase) {
      assert p in pushes' && pushes'[p] == phase;
    }
  }

  lemma Left(pushes: map<nat, Phase>, p: nat, next: Option<Phase>, pushes': map<nat, Phase>)
    requires pushes' == if next.Some? then pushes[p := next.value] else pushes - {p}
    requires p in pushes && next != Some(pushes[p])
    requires forall q :: q in pushes && pushes[q] == pushes[p] ==> q == p
    ensures !Waiting(pushes', pushes[p])
  {
  }

  /** Steps from and to other phases do not matter to the commits. */
  lemma CommitsUnmoved(commits: nat, jobs: seq<nat>, pushes: map<nat, Phase>, p: nat, next: Option<Phase>, pushes': map<nat, Phase>)
    requires CommitsInv(commits, jobs, pushes)
    requires pushes' == if next.Some? then pushes[p := next.value] else pushes - {p}
    requires p !in pushes || !pushes[p].Recorded?
    requires next.None? || !next.value.Recorded?
    ensures CommitsInv(commits, jobs, pushes')
  {
    forall c: nat
      ensures Waiting(pushes', Recorded(c)) <==> Waiting(pushes, Recorded(c))
    {
      Moved(pushes, p, next, pushes', Recorded(c));
    }
  }

  lemma JobsUnmoved(jobs: nat, runs: seq<nat>, pushes: map<nat, Phase>, p: nat, next: Option<Phase>, pushes': map<nat, Phase>)
    requires JobsInv(jobs, runs, pushes)
    requires pushes' == if next.Some? then pushes[p := next.value] else pushes - {p}
    requires p !in pushes || !pushes[p].HasJob?
    requires next.None? || !next.value.HasJob?
    ensures JobsInv(jobs, runs, pushes')
  {
    forall j: nat
      ensures Waiting(pushes', HasJob(j)) <==> Waiting(pushes, HasJob(j))
    {
      Moved(pushes, p, next, pushes', HasJob(j));
    }
  }

  lemma CommitRecorded(commits: nat, jobs: seq<nat>, pushes: map<nat, Phase>, p: nat)
    requires CommitsInv(commits, jobs, pushes) && p in pushes && !pushes[p].Recorded?
    ensures CommitsInv(commits + 1, jobs, pushes[p := Recorded(commits + 1)])
  {
    var pushes' := pushes[p := Recorded(commits + 1)];
    forall c: nat
      ensures Waiting(pushes', Recorded(c)) <==> Waiting(pushes, Recorded(c)) || c == commits + 1
    {
      Moved(pushes, p, Some(Recorded(commits + 1)), pushes', Recorded(c));
    }
  }

  lemma CommitGetsJob(commits: nat, jobs: seq<nat>, pushes: map<nat, Phase>, p: nat, job: nat)
    requires CommitsInv(commits, jobs, pushes) && p in pushes && pushes[p].Recorded?
    ensures CommitsInv(commits, jobs + [pushes[p].commit], pushes[p := HasJob(job)])
  {
    var pushes' := pushes[p := HasJob(job)];
    Left(pushes, p, Some(HasJob(job)), pushes');
    forall c: nat | c != pushes[p].commit
      ensures Waiting(pushes', Recorded(c)) <==> Waiting(pushes, Recorded(c))
    {
      Moved(pushes, p, Some(HasJob(job)), pushes', Recorded(c));
    }
    assert Waiting(pushes, Recorded(pushes[p].commit));
  }

  lemma JobMade(jobs: nat, runs: seq<nat>, pushes: map<nat, Phase>, p: nat)
    requires JobsInv(jobs, runs, pushes) && p in pushes && !pushes[p].HasJob?
    ensures JobsInv(jobs + 1, runs, pushes[p := HasJob(jobs + 1)])
  {
    var pushes' := pushes[p := HasJob(jobs + 1)];
    forall j: nat
      ensures Waiting(pushes', HasJob(j)) <==> Waiting(pushes, HasJob(j)) || j == jobs + 1
    {
      Moved(pushes, p, Some(HasJob(jobs + 1)), pushes', HasJob(j));
    }
  }

  lemma JobGetsRun(jobs: nat, runs: seq<nat>, pushes: map<nat, Phase>, p: nat)
    requires JobsInv(jobs, runs, pushes) && p in pushes && pushes[p].HasJob?
    ensures JobsInv(jobs, runs + [pushes[p].job], pushes - {p})
  {
    var pushes' := pushes - {p};
    Left(pushes, p, None, pushes');
    forall j: nat | j != pushes[p].job
      ensures Waiting(pushes', HasJob(j)) <==> Waiting(pushes, HasJob(j))
    {
      Moved(pushes, p, None, pushes', HasJob(j));
    }
    assert Waiting(pushes, HasJob(pushes[p].job));
  }

  lemma StepKeepsInv(s: State, st: Step)
    requires Inv(s) && Enabled(s, st)
    ensures Inv(Apply(s, st))
  {
    match st
    case Check(p, sha) =>
      if sha !in s.shas {
        CommitsUnmoved(|s.shas|, s.jobs, s.pushes, p, Some(Checked(sha)), Apply(s, st).pushes);
        JobsUnmoved(|s.jobs|, s.runs, s.pushes, p, Some(Checked(sha)), Apply(s, st).pushes);
      }
    case NewCommit(p) =>
      if s.pushes[p].sha !in s.shas {
        CommitRecorded(|s.shas|, s.jobs, s.pushes, p);
        JobsUnmoved(|s.jobs|, s.runs, s.pushes, p, Some(Recorded(|s.shas| + 1)), Apply(s, st).pushes);
      }
    case NewJob(p) =>
      CommitGetsJob(|s.shas|, s.jobs, s.pushes, p, |s.jobs| + 1);
      JobMade(|s.jobs|, s.runs, s.pushes, p);
    case NewRun(p) =>
      CommitsUnmoved(|s.shas|, s.jobs, s.pushes, p, None, Apply(s, st).pushes);
      JobGetsRun(|s.jobs|, s.runs, s.pushes, p);
  }

  lemma {:induction false} InvAlways(trace: seq<State>, steps: seq<Step>, i: nat)
    requires Behaviour(trace, steps) && i <= |steps|
    ensures Inv(trace[i])
  {
    if i > 0 {
      InvAlways(trace, steps, i - 1);
      assert StepAt(trace, steps, i - 1);
      StepKeepsInv(trace[i - 1], steps[i - 1]);
    }
  }

  /** Commit, job and run of a sha. */
  predicate Made(s: State, sha: string, c: nat, j: nat, r: nat) {
    && 1 <= c <= |s.shas| && s.shas[c - 1] == sha
    && 1 <= j <= |s.jobs| && s.jobs[j - 1] == c
    && 1 <= r <= |s.runs| && s.runs[r - 1] == j
  }

  /**
   However pushes interleave and repeat, once none is on its way every recorded sha has exactly one
   commit, one job and one run; and there is never more than one of any.
   */
  lemma OneRunPerSha(trace: seq<State>, steps: seq<Step>, i: nat, sha: string)
    requires Behaviour(trace, steps) && i <= |steps|
    ensures trace[i].pushes == map[] && sha in trace[i].shas ==> exists c, j, r :: Made(trace[i], sha, c, j, r)
    ensures forall c, j, r, c', j', r' :: Made(trace[i], sha, c, j, r) && Made(trace[i], sha, c', j', r') ==> c == c' && j == j' && r == r'
    ensures NoDuplicates(trace[i].shas) && NoDuplicates(trace[i].jobs) && NoDuplicates(trace[i].runs)
    ensures trace[i].pushes == map[] ==> |trace[i].shas| == |trace[i].jobs| == |trace[i].runs|
  {
    InvAlways(trace, steps, i);
    var s := trace[i];
    if s.pushes == map[] {
      if sha in s.shas {
        var k :| 0 <= k < |s.shas| && s.shas[k] == sha;
        var j := Position(s.jobs, k + 1);
        var r := Position(s.runs, j + 1);
        assert Made(s, sha, k + 1, j + 1, r + 1);
      }
      SameLength(|s.shas|, s.jobs);
      SameLength(|s.jobs|, s.runs);
    }
  }

  lemma Position(s: seq<nat>, x: nat) returns (i: nat)
    requires x in s
    ensures i < |s| && s[i] == x
  {
    i :| 0 <= i < |s| && s[i] == x;
  }

  lemma NonEmpty(s: seq<nat>)
    ensures s == [] || exists x :: x in s
  {
    if s != [] {
      assert s[0] in s;
    }
  }

  lemma {:induction false} SameLength(n: nat, s: seq<nat>)
    requires NoDuplicates(s) && forall x: nat :: 1 <= x <= n <==> x in s
    ensures |s| == n
  {
    if n == 0 {
      NonEmpty(s);
    } else {
      assert n in s;
      var i :| 0 <= i < |s| && s[i] == n;
      var rest := s[..i] + s[i + 1..];
      forall x: nat
        ensures 1 <= x <= n - 1 <==> x in rest
      {
        if x in s && x != n {
          var k :| 0 <= k < |s| && s[k] == x;
          assert x == rest[if k < i then k else k - 1];
        }
        if x in rest {
          assert x in s && x != n;
        }
      }
      SameLength(n - 1, rest);
    }
  }

  // ---- Pushes of the same sha ----

  predicate AtCheck(s: State, p: nat, sha: string) {
    p in s.pushes && s.pushes[p] == Checked(sha)
  }

  /** Two pushes have found the same sha to be new. */
  predicate Overlap(s: State, p: nat, q: nat, sha: string) {
    p != q && AtCheck(s, p, sha) && AtCheck(s, q, sha)
  }

  /** A push whose sha was recorded by another was once on its way together with it. */
  lemma {:induction false} LateMeansOverlap(trace: seq<State>, steps: seq<Step>, n: nat, p: nat, sha: string) returns (i: nat, q: nat)
    requires Behaviour(trace, steps) && n <= |steps|
    requires AtCheck(trace[n], p, sha) && sha in trace[n].shas
    ensures i < n && Overlap(trace[i], p, q, sha)
  {
    var s := trace[n - 1];
    assert StepAt(trace, steps, n - 1);
    if sha in s.shas {
      i, q := LateMeansOverlap(trace, steps, n - 1, p, sha);
    } else {
      i, q := n - 1, steps[n - 1].p;
    }
  }

  /** The lock is only ever poisoned by pushes of the same sha that overlap. */
  lemma {:induction false} PoisonMeansOverlap(trace: seq<State>, steps: seq<Step>, n: nat) returns (i: nat, p: nat, q: nat, sha: string)
    requires Behaviour(trace, steps) && n <= |steps| && trace[n].poisoned
    ensures i < n && Overlap(trace[i], p, q, sha)
  {
    assert StepAt(trace, steps, n - 1);
    p := steps[n - 1].p;
    sha := trace[n - 1].pushes[p].sha;
    i, q := LateMeansOverlap(trace, steps, n - 1, p, sha);
  }

  /** Of two pushes that do overlap, one at least is never done: unless it stays where it is, it poisons the lock. */
  lemma {:induction false} OverlapIsFatal(trace: seq<State>, steps: seq<Step>, i: nat, n: nat, p: nat, q: nat, sha: string)
    requires Behaviour(trace, steps) && i <= n <= |steps| && Overlap(trace[i], p, q, sha)
    ensures Overlap(trace[n], p, q, sha) || (sha in trace[n].shas && (AtCheck(trace[n], p, sha) || AtCheck(trace[n], q, sha)))
  {
    if i < n {
      OverlapIsFatal(trace, steps, i, n - 1, p, q, sha);
      assert StepAt(trace, steps, n - 1);
    }
  }

  // ---- Lock-step ----

  /** Every job has its commit's id. */
  ghost predicate LockStep(s: State) {
    forall k :: 0 <= k < |s.jobs| ==> s.jobs[k] == k + 1
  }

  /** What the commits table, which `job_for_commit` reads, has for a sha. */
  ghost predicate IdOfSha(s: State, sha: string, id: Option<nat>) {
    match id
    case None => sha !in s.shas
    case Some(c) => 1 <= c <= |s.shas| && s.shas[c - 1] == sha
  }

  /** Is every answer about the sha of job `k + 1` that job? */
  ghost predicate AnswersRight(s: State, k: nat)
    requires k < |s.jobs| && 1 <= s.jobs[k] <= |s.shas|
  {
    OnlyAnswer(s, s.shas[s.jobs[k] - 1], k + 1)
  }

  ghost predicate OnlyAnswer(s: State, sha: string, answer: nat) {
    forall id :: IdOfSha(s, sha, id) ==> id == Some(answer)
  }

  /** The answers are right exactly in lock-step. */
  lemma RightInLockStep(trace: seq<State>, steps: seq<Step>, i: nat)
    requires Behaviour(trace, steps) && i <= |steps|
    ensures forall k :: 0 <= k < |trace[i].jobs| ==> 1 <= trace[i].jobs[k] <= |trace[i].shas|
    ensures (forall k :: 0 <= k < |trace[i].jobs| ==> AnswersRight(trace[i], k)) <==> LockStep(trace[i])
  {
    InvAlways(trace, steps, i);
    var s := trace[i];
    forall k | 0 <= k < |s.jobs|
      ensures 1 <= s.jobs[k] <= |s.shas| && (AnswersRight(s, k) <==> s.jobs[k] == k + 1)
    {
      assert s.jobs[k] in s.jobs;
      assert IdOfSha(s, s.shas[s.jobs[k] - 1], Some(s.jobs[k]));
    }
  }

  /** Jobs are made in the order of their commits: no push overtakes another between the two. */
  ghost predicate Oldest(s: State, st: Step) {
    Enabled(s, st) && st.NewJob? ==>
      forall q :: q in s.pushes && s.pushes[q].Recorded? ==> s.pushes[st.p].commit <= s.pushes[q].commit
  }

  ghost predicate InOrder(trace: seq<State>, steps: seq<Step>, n: nat)
    requires n <= |steps| && |trace| == |steps| + 1
  {
    forall i :: 0 <= i < n ==> Oldest(trace[i], steps[i])
  }

  lemma HasJobInLockStep(s: State, c: nat)
    requires LockStep(s) && 1 <= c <= |s.jobs|
    ensures c in s.jobs
  {
    assert s.jobs[c - 1] == c;
  }

  /** In lock-step, only commits younger than the last job's wait, and the next one does if any. */
  lemma WaitingInLockStep(s: State)
    requires Inv(s) && LockStep(s)
    ensures forall q :: q in s.pushes && s.pushes[q].Recorded? ==> |s.jobs| < s.pushes[q].commit <= |s.shas|
    ensures |s.jobs| < |s.shas| ==> Waiting(s.pushes, Recorded(|s.jobs| + 1))
  {
    forall q | q in s.pushes && s.pushes[q].Recorded?
      ensures |s.jobs| < s.pushes[q].commit
    {
      var c := s.pushes[q].commit;
      assert Waiting(s.pushes, Recorded(c));
      if c <= |s.jobs| {
        HasJobInLockStep(s, c);
      }
    }
    if |s.jobs| + 1 in s.jobs {
      var k := Position(s.jobs, |s.jobs| + 1);
      assert false;
    }
  }

  /** In lock-step, the job to come is that of the oldest commit that waits. */
  lemma NextInLockStep(s: State, st: Step)
    requires Inv(s) && LockStep(s) && Enabled(s, st)
    ensures LockStep(Apply(s, st)) <==> Oldest(s, st)
  {
    if st.NewJob? {
      WaitingInLockStep(s);
      var s' := Apply(s, st);
      assert s'.jobs[|s.jobs|] == s.pushes[st.p].commit;
      assert forall k :: 0 <= k < |s.jobs| ==> s'.jobs[k] == s.jobs[k];
    }
  }

  /** Jobs, once made, stay as they are. */
  lemma LockStepWasKept(s: State, st: Step)
    requires Enabled(s, st) && LockStep(Apply(s, st))
    ensures LockStep(s)
  {
    forall k | 0 <= k < |s.jobs|
      ensures s.jobs[k] == k + 1
    {
      assert Apply(s, st).jobs[k] == s.jobs[k];
    }
  }

  /** Ids agree exactly as long as jobs are made in the order of their commits. */
  lemma {:induction false} LockStepExactly(trace: seq<State>, steps: seq<Step>, n: nat)
    requires Behaviour(trace, steps) && n <= |steps|
    ensures LockStep(trace[n]) <==> InOrder(trace, steps, n)
  {
    if n > 0 {
      LockStepExactly(trace, steps, n - 1);
      InvAlways(trace, steps, n - 1);
      assert StepAt(trace, steps, n - 1);
      if LockStep(trace[n]) {
        LockStepWasKept(trace[n - 1], steps[n - 1]);
      }
      if LockStep(trace[n - 1]) {
        NextInLockStep(trace[n - 1], steps[n - 1]);
      }
    }
  }

  /** Two pushes of different shas, the second overtaking the first, leave each sha with the other's job. */
  lemma OvertakingBreaksLockStep(a: string, b: string) returns (trace: seq<State>, steps: seq<Step>)
    requires a != b
    ensures Behaviour(trace, steps) && trace[|steps|].pushes == map[] && !trace[|steps|].poisoned
    ensures IdOfSha(trace[|steps|], a, Some(1)) && Made(trace[|steps|], b, 2, 1, 1)
    ensures IdOfSha(trace[|steps|], b, Some(2)) && Made(trace[|steps|], a, 1, 2, 2)
  {
    steps := [Check(0, a), Check(1, b), NewCommit(0), NewCommit(1), NewJob(1), NewJob(0), NewRun(1), NewRun(0)];
    var s1 := Apply(START, steps[0]);
    var s2 := Apply(s1, steps[1]);
    var s3 := Apply(s2, steps[2]);
    var s4 := Apply(s3, steps[3]);
    var s5 := Apply(s4, steps[4]);
    var s6 := Apply(s5, steps[5]);
    var s7 := Apply(s6, steps[6]);
    var s8 := Apply(s7, steps[7]);
    trace := [START, s1, s2, s3, s4, s5, s6, s7, s8];
    assert s8 == State([a, b], [2, 1], [1, 2], map[], false);
  }

  // ---- Pushes one after another ----

  /** What a push makes of the tables when no other is on its way. */
  function Pushed(s: State, sha: string): State {
    if s.poisoned || sha in s.shas then s
    else s.(shas := s.shas + [sha], jobs := s.jobs + [|s.shas| + 1], runs := s.runs + [|s.jobs| + 1])
  }

  /** It does so by its four critical sections in a row, after which it is no longer on its way. */
  lemma PushedInFourSteps(s: State, p: nat, sha: string)
    requires !s.poisoned && s.pushes == map[] && sha !in s.shas
    ensures var s1 := Apply(s, Check(p, sha));
            Enabled(s1, NewCommit(p)) &&
            var s2 := Apply(s1, NewCommit(p));
            Enabled(s2, NewJob(p)) &&
            var s3 := Apply(s2, NewJob(p));
            Enabled(s3, NewRun(p)) && Apply(s3, NewRun(p)) == Pushed(s, sha)
  {
    var s1 := Apply(s, Check(p, sha));
    var s2 := Apply(s1, NewCommit(p));
    var s3 := Apply(s2, NewJob(p));
    assert Apply(s3, NewRun(p)).pushes == map[];
  }

  class PushDb {
    var shas: seq<string>
    var jobs: seq<nat>
    var runs: seq<nat>
    var poisoned: bool

    ghost function Contents(): State
      reads this
    {
      State(shas, jobs, runs, map[], poisoned)
    }

    constructor ()
      ensures Contents() == START
    {
      shas, jobs, runs, poisoned := [], [], [], false;
    }

    /** None is a panic. */
    method NewCommit(sha: string) returns (id: Option<nat>)
      modifies this
      ensures jobs == old(jobs) && runs == old(runs)
      ensures if old(poisoned) || sha in old(shas)
              then id == None && poisoned && shas == old(shas)
              else id == Some(|shas|) && !poisoned && shas == old(shas) + [sha]
    {
      if poisoned || sha in shas {
        poisoned := true;
        return None;
      }
      shas := shas + [sha];
      return Some(|shas|);
    }

    method NewJob(sha: string) returns (ids: Option<(nat, nat)>)
      modifies this
      ensures runs == old(runs)
      ensures if old(poisoned) || sha in old(shas)
              then ids == None && poisoned && shas == old(shas) && jobs == old(jobs)
              else && ids == Some((|jobs|, |shas|)) && !poisoned
                   && shas == old(shas) + [sha] && jobs == old(jobs) + [|shas|]
    {
      var commit := NewCommit(sha);
      if commit.None? {
        return None;
      }
      jobs := jobs + [commit.value];
      return Some((|jobs|, commit.value));
    }

    method JobForCommit(sha: string) returns (id: Option<nat>)
      ensures IdOfSha(Contents(), sha, id)
    {
      for k := 0 to |shas|
        invariant sha !in shas[..k]
      {
        if shas[k] == sha {
          return Some(k + 1);
        }
      }
      return None;
    }

    /** `process_push_event`, as far as the tables go; it returns the commit's id, or None for a panic. */
    method ProcessPush(sha: string) returns (commit: Option<nat>)
      modifies this
      ensures Contents() == Pushed(old(Contents()), sha)
      ensures commit.None? <==> old(poisoned)
      ensures commit.Some? ==> 1 <= commit.value <= |shas| && shas[commit.value - 1] == sha
    {
      if poisoned {
        return None;
      }
      commit := JobForCommit(sha);
      if commit.None? {
        var ids := NewJob(sha);
        runs := runs + [ids.value.0];
        commit := Some(ids.value.1);
      }
    }
  }

  /** The tables after pushes one after another. */
  function Serial(pushed: seq<string>): State {
    if pushed == [] then START else Pushed(Serial(pushed[..|pushed| - 1]), pushed[|pushed| - 1])
  }

  /** Some interleaving leads here. */
  ghost predicate Reachable(s: State) {
    exists trace, steps :: Behaviour(trace, steps) && trace[|steps|] == s
  }

  lemma Extend(trace: seq<State>, steps: seq<Step>, st: Step)
    requires Behaviour(trace, steps) && Enabled(trace[|steps|], st)
    ensures Behaviour(trace + [Apply(trace[|steps|], st)], steps + [st])
  {
    var more, all := trace + [Apply(trace[|steps|], st)], steps + [st];
    forall i | 0 <= i < |all|
      ensures StepAt(more, all, i)
    {
      if i < |steps| { assert StepAt(trace, steps, i); }
    }
  }

  /** One push by itself: a check, which ends there for a known sha, and else three more steps. */
  lemma PushIsReachable(trace: seq<State>, steps: seq<Step>, sha: string) returns (more: seq<State>, all: seq<Step>)
    requires Behaviour(trace, steps) && !trace[|steps|].poisoned && trace[|steps|].pushes == map[]
    ensures Behaviour(more, all) && more[|all|] == Pushed(trace[|steps|], sha)
  {
    var s := trace[|steps|];
    Extend(trace, steps, Check(0, sha));
    more, all := trace + [Apply(s, Check(0, sha))], steps + [Check(0, sha)];
    if sha !in s.shas {
      PushedInFourSteps(s, 0, sha);
      more, all := RestOfPush(more, all, 0);
    }
  }

  lemma RestOfPush(trace: seq<State>, steps: seq<Step>, p: nat) returns (more: seq<State>, all: seq<Step>)
    requires Behaviour(trace, steps)
    requires var s := trace[|steps|];
             Enabled(s, NewCommit(p)) &&
             var s2 := Apply(s, NewCommit(p));
             Enabled(s2, NewJob(p)) && Enabled(Apply(s2, NewJob(p)), NewRun(p))
    ensures Behaviour(more, all)
    ensures more[|all|] == Apply(Apply(Apply(trace[|steps|], NewCommit(p)), NewJob(p)), NewRun(p))
  {
    more, all := trace, steps;
    Extend(more, all, NewCommit(p));
    more, all := more + [Apply(more[|all|], NewCommit(p))], all + [NewCommit(p)];
    Extend(more, all, NewJob(p));
    more, all := more + [Apply(more[|all|], NewJob(p))], all + [NewJob(p)];
    Extend(more, all, NewRun(p));
    more, all := more + [Apply(more[|all|], NewRun(p))], all + [NewRun(p)];
  }

  lemma {:induction false} SerialIsReachable(pushed: seq<string>) returns (trace: seq<State>, steps: seq<Step>)
    ensures Behaviour(trace, steps) && trace[|steps|] == Serial(pushed)
    ensures !Serial(pushed).poisoned && Serial(pushed).pushes == map[]
  {
    if pushed == [] {
      trace, steps := [START], [];
    } else {
      trace, steps := SerialIsReachable(pushed[..|pushed| - 1]);
      trace, steps := PushIsReachable(trace, steps, pushed[|pushed| - 1]);
    }
  }

  /**
   After pushes one after another, in any number and order, ids agree and each sha pushed has one job and
   one run; and these are tables that the interleaved pushes can lead to.
   */
  lemma {:induction false} SerialPushes(pushed: seq<string>)
    ensures var s := Serial(pushed);
            && !s.poisoned && s.pushes == map[] && NoDuplicates(s.shas) && LockStep(s) && |s.shas| == |s.jobs| == |s.runs|
            && (forall sha :: sha in s.shas <==> sha in pushed)
            && (forall k :: 0 <= k < |s.shas| ==> Made(s, s.shas[k], k + 1, k + 1, k + 1))
    ensures Reachable(Serial(pushed))
  {
    var _, _ := SerialIsReachable(pushed);
    if pushed != [] {
      var before, sha := pushed[..|pushed| - 1], pushed[|pushed| - 1];
      assert pushed == before + [sha];
      SerialPushes(before);
      var s, s' := Serial(before), Serial(pushed);
      if sha !in s.shas {
        forall k | 0 <= k < |s'.shas|
          ensures Made(s', s'.shas[k], k + 1, k + 1, k + 1)
        {
          if k < |s.shas| {
            assert Made(s, s.shas[k], k + 1, k + 1, k + 1);
          }
        }
        assert forall k :: 0 <= k < |s'.shas| ==> Made(s', s'.shas[k], k + 1, k + 1, k + 1) && s'.jobs[k] == k + 1;
      }
    }
  }
}

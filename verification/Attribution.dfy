/**
 What a build token stands for.  Tokens identify at most one run in every interleaving.  While picks
 are disjoint, an artifact recorded through a valid token is no older than the run it belongs to, so
 the job page's filter by time against "artifacts of previous runs" removes nothing.
 */
module Attribution {
  import opened Common
  import opened Store
  import opened System
  import ReaperSafety
  import Lifecycle

  ghost predicate TokensIssued(runs: map<nat, Run>, cands: map<nat, Candidate>, tokens: set<nat>) {
    && (forall c :: c in cands ==> cands[c].token in tokens)
    && (forall r :: r in runs && runs[r].buildToken.Some? ==> runs[r].buildToken.value in tokens)
  }

  ghost predicate ClientTokensDiffer(cands: map<nat, Candidate>) {
    forall c, d :: c in cands && d in cands && c != d ==> cands[c].token != cands[d].token
  }

  /** A client's token is on no row until it has been given a run. */
  ghost predicate UnusedTokens(runs: map<nat, Run>, cands: map<nat, Candidate>) {
    forall c, r :: c in cands && r in runs && !cands[c].phase.Listening() ==> runs[r].buildToken != Some(cands[c].token)
  }

  ghost predicate RunTokensDiffer(runs: map<nat, Run>) {
    forall r, q :: r in runs && q in runs && r != q && runs[r].buildToken.Some? ==> runs[r].buildToken != runs[q].buildToken
  }

  ghost predicate TokensOk(s: Sys) {
    && TokensIssued(s.db.runs, s.cands, s.tokens)
    && ClientTokensDiffer(s.cands)
    && UnusedTokens(s.db.runs, s.cands)
    && RunTokensDiffer(s.db.runs)
  }

  lemma WorldKeepsTokens(s: Sys, w: WorldStep)
    requires TokensOk(s) && WorldEnabled(s, w)
    ensures TokensOk(WorldApply(s, w))
  {
  }

  /** A client moves on, but not from having its token on a row to not having it. */
  lemma MoveKeepsTokens(s: Sys, c: nat, phase: Phase)
    requires TokensOk(s) && c in s.cands && (s.cands[c].phase.Listening() ==> phase.Listening())
    ensures TokensOk(s.At(c, phase))
  {
  }

  lemma InsertKeepsTokens(s: Sys, jobId: nat, preference: Option<nat>, created: nat)
    requires TokensOk(s)
    ensures TokensOk(s.(db := s.db.InsertRun(PendingRow(jobId, preference, created))))
  {
  }

  lemma SearchKeepsTokens(s: Sys, c: nat, q: SearchStep)
    requires TokensOk(s) && c in s.cands && SearchEnabled(s, c, q)
    ensures TokensOk(SearchApply(s, c, q))
  {
    var phase := SearchApply(s, c, q).cands[c].phase;
    if q.InsertAlternate? {
      InsertKeepsTokens(s, s.cands[c].phase.job, Some(s.cands[c].host), q.created);
      MoveKeepsTokens(s.(db := s.db.InsertRun(PendingRow(s.cands[c].phase.job, Some(s.cands[c].host), q.created))), c, phase);
    } else {
      MoveKeepsTokens(s, c, phase);
    }
  }

  /** The only step that puts a token on a row: the client's own, which is on no other. */
  lemma ActivateKeepsTokens(s: Sys, c: nat)
    requires TokensOk(s) && c in s.cands && s.cands[c].phase.Acked?
    ensures TokensOk(HandOffApply(s, c, Activate))
  {
  }

  lemma HandOffKeepsTokens(s: Sys, c: nat, h: HandOffStep)
    requires TokensOk(s) && c in s.cands && HandOffEnabled(s, c, h)
    ensures TokensOk(HandOffApply(s, c, h))
  {
    if h.Activate? {
      ActivateKeepsTokens(s, c);
    } else {
      MoveKeepsTokens(s, c, HandOffApply(s, c, h).cands[c].phase);
    }
  }

  lemma SweepKeepsTokens(s: Sys, r: SweepStep)
    requires TokensOk(s) && SweepEnabled(s, r)
    ensures TokensOk(SweepApply(s, r))
  {
  }

  lemma NextKeepsTokens(s: Sys, s': Sys)
    requires TokensOk(s) && Next(s, s')
    ensures TokensOk(s')
  {
    var st :| Enabled(s, st) && s' == Apply(s, st);
    match st
    case World(w) => WorldKeepsTokens(s, w);
    case Search(c, q) => SearchKeepsTokens(s, c, q);
    case HandOff(c, h) => HandOffKeepsTokens(s, c, h);
    case Sweep(r) => SweepKeepsTokens(s, r);
  }

  predicate HasToken(runs: map<nat, Run>, r: nat, t: nat) {
    r in runs && runs[r].buildToken == Some(t)
  }

  /** In every interleaving, a token finds at most one run. */
  lemma {:induction false} TokensIdentifyRuns(tr: seq<Sys>, i: nat)
    requires Behaviour(tr) && Init(tr[0]) && i < |tr|
    ensures TokensOk(tr[i])
    ensures forall r, q, t :: HasToken(tr[i].db.runs, r, t) && HasToken(tr[i].db.runs, q, t) ==> r == q
  {
    if i > 0 {
      TokensIdentifyRuns(tr, i - 1);
      assert StepAt(tr, i - 1);
      NextKeepsTokens(tr[i - 1], tr[i]);
    }
  }

  /** A request with this token, checked at this time, is one of the run: not before its start nor after its timeout. */
  predicate Backs(runs: map<nat, Run>, r: nat, token: nat, checkedAt: nat) {
    && r in runs && runs[r].buildToken == Some(token) && runs[r].startTime.Some?
    && runs[r].startTime.value <= checkedAt <= runs[r].startTime.value + runs[r].runTimeout.GetOr(1_800_000)
  }

  ghost predicate UploadsOk(runs: map<nat, Run>, uploads: multiset<Upload>, now: nat) {
    forall u :: u in uploads ==> Backs(runs, u.run, u.token, u.at) && u.at <= now
  }

  ghost predicate ArtifactsOk(runs: map<nat, Run>, artifacts: seq<Artifact>) {
    forall a :: a in artifacts ==> Backs(runs, a.run, a.token, a.checkedAt) && a.checkedAt <= a.createdTime
  }

  ghost predicate ArtifactsFollow(s: Sys) {
    UploadsOk(s.db.runs, s.uploads, s.now) && ArtifactsOk(s.db.runs, s.artifacts)
  }

  /** What makes a token a run's own. */
  predicate SameStart(row: Run, row': Run) {
    row'.startTime == row.startTime && row'.buildToken == row.buildToken && row'.runTimeout == row.runTimeout
  }

  /** While the picks are disjoint, a start time that is set stays as it is, and the token with it. */
  lemma StepKeepsStart(s: Sys, st: Step, r: nat)
    requires Lifecycle.Inv(s) && Enabled(s, st) && r in s.db.runs && s.db.runs[r].startTime.Some?
    ensures r in Apply(s, st).db.runs && SameStart(s.db.runs[r], Apply(s, st).db.runs[r])
  {
    StepChange(s, st);
  }

  /** A token that is found valid is that of a started run. */
  lemma LookUpKeepsUploads(runs: map<nat, Run>, uploads: multiset<Upload>, r: nat, token: nat, now: nat)
    requires Lifecycle.RowsOk(runs, now) && UploadsOk(runs, uploads, now)
    requires r in runs && runs[r].buildToken == Some(token) && Validity(runs[r], now).TokenValid?
    ensures UploadsOk(runs, uploads + multiset{Upload(r, token, now)}, now)
  {
    assert Lifecycle.Timely(runs[r], now);
  }

  lemma ReserveKeepsArtifacts(runs: map<nat, Run>, uploads: multiset<Upload>, artifacts: seq<Artifact>, u: Upload, created: nat, now: nat)
    requires UploadsOk(runs, uploads, now) && ArtifactsOk(runs, artifacts) && u in uploads && u.at <= created
    ensures UploadsOk(runs, uploads - multiset{u}, now)
    ensures ArtifactsOk(runs, artifacts + [Artifact(u.run, created, u.token, u.at)])
  {
    assert forall v :: v in uploads - multiset{u} ==> v in uploads;
  }

  lemma WorldKeepsArtifacts(s: Sys, w: WorldStep)
    requires s.db.Valid() && Lifecycle.RowsOk(s.db.runs, s.now) && ArtifactsFollow(s) && WorldEnabled(s, w)
    ensures ArtifactsFollow(WorldApply(s, w))
  {
    match w
    case LookUpToken(token, run) => LookUpKeepsUploads(s.db.runs, s.uploads, run, token, s.now);
    case ReserveArtifact(u, created) => ReserveKeepsArtifacts(s.db.runs, s.uploads, s.artifacts, u, created, s.now);
    case _ =>
  }

  ghost predicate StartsStay(runs: map<nat, Run>, runs': map<nat, Run>) {
    forall r :: r in runs && runs[r].startTime.Some? ==> r in runs' && SameStart(runs[r], runs'[r])
  }

  lemma StartsStayKeepsArtifacts(runs: map<nat, Run>, runs': map<nat, Run>, uploads: multiset<Upload>, artifacts: seq<Artifact>, now: nat)
    requires UploadsOk(runs, uploads, now) && ArtifactsOk(runs, artifacts) && StartsStay(runs, runs')
    ensures UploadsOk(runs', uploads, now) && ArtifactsOk(runs', artifacts)
  {
  }

  lemma StepStartsStay(s: Sys, st: Step)
    requires Lifecycle.Inv(s) && Enabled(s, st)
    ensures StartsStay(s.db.runs, Apply(s, st).db.runs)
  {
    forall r | r in s.db.runs && s.db.runs[r].startTime.Some?
      ensures r in Apply(s, st).db.runs && SameStart(s.db.runs[r], Apply(s, st).db.runs[r])
    {
      StepKeepsStart(s, st, r);
    }
  }

  /** Only requests touch the artifacts, and only the clock itself the clock. */
  lemma OthersLeaveArtifacts(s: Sys, st: Step)
    requires Enabled(s, st) && !st.World?
    ensures Apply(s, st).uploads == s.uploads && Apply(s, st).artifacts == s.artifacts && Apply(s, st).now == s.now
  {
  }

  lemma StepKeepsArtifacts(s: Sys, st: Step)
    requires Lifecycle.Inv(s) && ArtifactsFollow(s) && Enabled(s, st)
    ensures ArtifactsFollow(Apply(s, st))
  {
    if st.World? {
      WorldKeepsArtifacts(s, st.w);
    } else {
      OthersLeaveArtifacts(s, st);
      StepStartsStay(s, st);
      StartsStayKeepsArtifacts(s.db.runs, Apply(s, st).db.runs, s.uploads, s.artifacts, s.now);
    }
  }

  ghost predicate Inv(s: Sys) {
    Lifecycle.Inv(s) && ArtifactsFollow(s)
  }

  lemma NextKeepsArtifacts(s: Sys, s': Sys)
    requires Inv(s) && Next(s, s')
    ensures ArtifactsFollow(s')
  {
    var st :| Enabled(s, st) && s' == Apply(s, st);
    StepKeepsArtifacts(s, st);
  }

  lemma NextKeepsInv(s: Sys, s': Sys)
    requires Inv(s) && Lifecycle.DisjointPicks(s.cands) && Next(s, s')
    ensures Inv(s')
  {
    Lifecycle.NextKeepsInv(s, s');
    NextKeepsArtifacts(s, s');
  }

  lemma {:induction false} InvAlways(tr: seq<Sys>, i: nat)
    requires Behaviour(tr) && Inv(tr[0]) && i < |tr|
    requires forall k :: 0 <= k < i ==> Lifecycle.DisjointPicks(tr[k].cands)
    ensures Inv(tr[i])
  {
    if i > 0 {
      InvAlways(tr, i - 1);
      assert StepAt(tr, i - 1);
      NextKeepsInv(tr[i - 1], tr[i]);
    }
  }

  lemma NoArtifactsYet(s: Sys)
    requires Init(s)
    ensures Inv(s)
  {
    Lifecycle.InitOk(s);
  }

  lemma ArtifactsFollowAlways(tr: seq<Sys>, i: nat)
    requires Behaviour(tr) && Init(tr[0]) && i < |tr|
    requires forall k :: 0 <= k < i ==> Lifecycle.DisjointPicks(tr[k].cands)
    ensures ArtifactsFollow(tr[i])
  {
    NoArtifactsYet(tr[0]);
    InvAlways(tr, i);
  }

  /**
   An artifact is attributed to the one run whose token came with it, was asked for between that run's
   start and its timeout, which is half an hour unless the row says otherwise, and is no older than the run.
   */
  lemma ArtifactsAreTheRunsOwn(tr: seq<Sys>, i: nat, a: Artifact)
    requires Behaviour(tr) && Init(tr[0]) && i < |tr| && a in tr[i].artifacts
    requires forall k :: 0 <= k < i ==> Lifecycle.DisjointPicks(tr[k].cands)
    ensures forall r :: r == a.run <==> HasToken(tr[i].db.runs, r, a.token)
    ensures a.run in tr[i].db.runs && tr[i].db.runs[a.run].startTime.Some?
    ensures var row := tr[i].db.runs[a.run];
            && row.startTime.value <= a.checkedAt <= a.createdTime
            && a.checkedAt <= row.startTime.value + row.runTimeout.GetOr(1_800_000)
  {
    ArtifactsFollowAlways(tr, i);
    TokensIdentifyRuns(tr, i);
    assert HasToken(tr[i].db.runs, a.run, a.token);
  }

  /**
   `artifacts_for_run`, without its limit and without its demand that the name have "(stdout)" or
   "(stderr)" in it.
   */
  function ArtifactsOf(artifacts: seq<Artifact>, r: nat): (found: seq<Artifact>)
    ensures forall a :: a in found <==> a in artifacts && a.run == r
  {
    if artifacts == [] then []
    else (if artifacts[0].run == r then [artifacts[0]] else []) + ArtifactsOf(artifacts[1..], r)
  }

  /** The job page's filter against artifacts of earlier runs of a run. */
  function NotBefore(artifacts: seq<Artifact>, t: nat): (kept: seq<Artifact>)
    ensures forall a :: a in kept <==> a in artifacts && a.createdTime >= t
  {
    if artifacts == [] then []
    else (if artifacts[0].createdTime >= t then [artifacts[0]] else []) + NotBefore(artifacts[1..], t)
  }

  lemma {:induction false} NothingBefore(artifacts: seq<Artifact>, t: nat)
    requires forall a :: a in artifacts ==> a.createdTime >= t
    ensures NotBefore(artifacts, t) == artifacts
  {
    if artifacts != [] {
      assert artifacts[0] in artifacts;
      NothingBefore(artifacts[1..], t);
    }
  }

  /** Of the artifacts of a run that are listed at all, its page's filter by time hides none. */
  lemma NoArtifactIsHidden(tr: seq<Sys>, i: nat, r: nat, now: nat)
    requires Behaviour(tr) && Init(tr[0]) && i < |tr| && r in tr[i].db.runs
    requires forall k :: 0 <= k < i ==> Lifecycle.DisjointPicks(tr[k].cands)
    ensures var mine := ArtifactsOf(tr[i].artifacts, r);
            NotBefore(mine, tr[i].db.runs[r].startTime.GetOr(now)) == mine
  {
    ArtifactsFollowAlways(tr, i);
    NothingBefore(ArtifactsOf(tr[i].artifacts, r), tr[i].db.runs[r].startTime.GetOr(now));
  }
}

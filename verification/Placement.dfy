/** Which runs a host comes to carry, whatever the clients do. */
module Placement {
  import opened Common
  import opened Store
  import opened System
  import ReaperSafety

  /** A run made for one host, or for whichever comes first. */
  predicate MayRunOn(row: Run, host: nat) {
    row.hostPreference == None || row.hostPreference == Some(host)
  }

  /** The run suits the client, and came to it the way `origin` says. */
  ghost predicate Suits(db: Db, host: nat, accepted: Option<seq<string>>, r: nat, origin: Origin) {
    && r in db.runs && db.runs[r].jobId in db.jobs
    && MayRunOn(db.runs[r], host)
    && WillAccept(accepted, db.jobs[db.runs[r].jobId])
    && match origin
       case FromPending(seen) => NewestAcceptable(seen, host, accepted, r)
       case FromAlternate(seen, readAt) =>
         && db.runs[r].hostPreference == Some(host)
         && ChosenFrom(db, seen, host, accepted, readAt, db.runs[r].jobId)
  }

  /** The job needed a run on the host when it was chosen, and is still the same job. */
  ghost predicate ChosenFrom(db: Db, seen: Db, host: nat, accepted: Option<seq<string>>, readAt: nat, j: nat) {
    && AcceptableAlternate(seen, host, accepted, readAt - DAY_MS, j)
    && j in db.jobs && db.jobs[j] == seen.jobs[j]
  }

  ghost predicate HoldersOk(db: Db, cands: map<nat, Candidate>) {
    forall c :: c in cands && cands[c].phase.Holds() ==>
      Suits(db, cands[c].host, cands[c].accepted, cands[c].phase.run, cands[c].phase.origin)
  }

  /** A client that has decided to make an alternate run accepts its job. */
  ghost predicate ChoicesOk(db: Db, cands: map<nat, Candidate>) {
    forall c :: c in cands && cands[c].phase.Alternate? ==>
      ChosenFrom(db, cands[c].phase.seen, cands[c].host, cands[c].accepted, cands[c].phase.readAt, cands[c].phase.job)
  }

  /** Every run that names a host was taken by a client of that host, whom it suited. */
  ghost predicate TakersOk(db: Db, takers: map<nat, Taker>) {
    forall r :: r in db.runs && db.runs[r].hostId.Some? ==>
      && r in takers && db.runs[r].hostId == Some(takers[r].host)
      && Suits(db, takers[r].host, takers[r].accepted, r, takers[r].origin)
  }

  ghost predicate Placed(s: Sys) {
    HoldersOk(s.db, s.cands) && ChoicesOk(s.db, s.cands) && TakersOk(s.db, s.takers)
  }

  /** What a change of the tables must respect for a run to go on suiting whom it suited. */
  ghost predicate KeepsSuiting(db: Db, db': Db) {
    && (forall r :: r in db.runs ==> r in db'.runs && db'.runs[r].jobId == db.runs[r].jobId
                                      && db'.runs[r].hostPreference == db.runs[r].hostPreference)
    && (forall j :: j in db.jobs ==> j in db'.jobs && db'.jobs[j] == db.jobs[j])
  }

  lemma StepKeepsSuiting(s: Sys, st: Step)
    requires s.db.Valid() && Enabled(s, st)
    ensures KeepsSuiting(s.db, Apply(s, st).db)
  {
    StepChange(s, st);
  }

  lemma WorldKeepsPlaced(s: Sys, w: WorldStep)
    requires s.db.Valid() && Placed(s) && WorldEnabled(s, w)
    ensures Placed(WorldApply(s, w))
  {
    StepKeepsSuiting(s, World(w));
  }

  lemma SearchKeepsPlaced(s: Sys, c: nat, q: SearchStep)
    requires s.db.Valid() && Placed(s) && c in s.cands && SearchEnabled(s, c, q)
    ensures Placed(SearchApply(s, c, q))
  {
    StepKeepsSuiting(s, Search(c, q));
  }

  lemma HandOffKeepsHolders(s: Sys, c: nat, h: HandOffStep)
    requires HoldersOk(s.db, s.cands) && ChoicesOk(s.db, s.cands) && c in s.cands && HandOffEnabled(s, c, h)
    requires KeepsSuiting(s.db, HandOffApply(s, c, h).db)
    ensures HoldersOk(HandOffApply(s, c, h).db, HandOffApply(s, c, h).cands)
    ensures ChoicesOk(HandOffApply(s, c, h).db, HandOffApply(s, c, h).cands)
  {
    var s' := HandOffApply(s, c, h);
    assert s'.cands == s.cands[c := s.cands[c].(phase := s'.cands[c].phase)];
  }

  /** Whoever starts a run has held it, so it suits. */
  lemma HandOffKeepsTakers(s: Sys, c: nat, h: HandOffStep)
    requires Placed(s) && c in s.cands && HandOffEnabled(s, c, h)
    requires KeepsSuiting(s.db, HandOffApply(s, c, h).db)
    ensures TakersOk(HandOffApply(s, c, h).db, HandOffApply(s, c, h).takers)
  {
  }

  lemma HandOffKeepsPlaced(s: Sys, c: nat, h: HandOffStep)
    requires s.db.Valid() && Placed(s) && c in s.cands && HandOffEnabled(s, c, h)
    ensures Placed(HandOffApply(s, c, h))
  {
    StepKeepsSuiting(s, HandOff(c, h));
    HandOffKeepsHolders(s, c, h);
    HandOffKeepsTakers(s, c, h);
  }

  lemma SweepKeepsPlaced(s: Sys, r: SweepStep)
    requires s.db.Valid() && Placed(s) && SweepEnabled(s, r)
    ensures Placed(SweepApply(s, r))
  {
    StepKeepsSuiting(s, Sweep(r));
  }

  lemma NextKeepsPlaced(s: Sys, s': Sys)
    requires s.db.Valid() && Placed(s) && Next(s, s')
    ensures Placed(s')
  {
    var st :| Enabled(s, st) && s' == Apply(s, st);
    match st
    case World(w) => WorldKeepsPlaced(s, w);
    case Search(c, q) => SearchKeepsPlaced(s, c, q);
    case HandOff(c, h) => HandOffKeepsPlaced(s, c, h);
    case Sweep(r) => SweepKeepsPlaced(s, r);
  }

  lemma {:induction false} PlacedAlways(tr: seq<Sys>, i: nat)
    requires Behaviour(tr) && Init(tr[0]) && i < |tr|
    ensures Placed(tr[i])
  {
    if i > 0 {
      PlacedAlways(tr, i - 1);
      ReaperSafety.ValidAlways(tr, i - 1);
      assert StepAt(tr, i - 1);
      NextKeepsPlaced(tr[i - 1], tr[i]);
    }
  }

  ghost function PastTables(tr: seq<Sys>, i: nat): set<Db>
    requires i < |tr|
  {
    set k | 0 <= k <= i :: tr[k].db
  }

  /** Whatever query a client or a taker refers to, it was answered from one of these tables. */
  ghost predicate HoldersSaw(cands: map<nat, Candidate>, known: set<Db>) {
    && (forall c :: c in cands && cands[c].phase.Holds() ==> cands[c].phase.origin.seen in known)
    && (forall c :: c in cands && cands[c].phase.Alternate? ==> cands[c].phase.seen in known)
  }

  ghost predicate TakersSaw(takers: map<nat, Taker>, known: set<Db>) {
    forall r :: r in takers ==> takers[r].origin.seen in known
  }

  lemma WorldKeepsSaw(s: Sys, w: WorldStep, known: set<Db>)
    requires HoldersSaw(s.cands, known) && TakersSaw(s.takers, known) && WorldEnabled(s, w)
    ensures HoldersSaw(WorldApply(s, w).cands, known) && TakersSaw(WorldApply(s, w).takers, known)
  {
  }

  lemma SearchKeepsSaw(s: Sys, c: nat, q: SearchStep, known: set<Db>)
    requires HoldersSaw(s.cands, known) && s.db in known && c in s.cands && SearchEnabled(s, c, q)
    ensures HoldersSaw(SearchApply(s, c, q).cands, known)
  {
  }

  lemma HandOffKeepsSaw(s: Sys, c: nat, h: HandOffStep, known: set<Db>)
    requires HoldersSaw(s.cands, known) && TakersSaw(s.takers, known) && c in s.cands && HandOffEnabled(s, c, h)
    ensures HoldersSaw(HandOffApply(s, c, h).cands, known) && TakersSaw(HandOffApply(s, c, h).takers, known)
  {
  }

  lemma NextKeepsSaw(s: Sys, s': Sys, known: set<Db>)
    requires HoldersSaw(s.cands, known) && TakersSaw(s.takers, known) && s.db in known && Next(s, s')
    ensures HoldersSaw(s'.cands, known) && TakersSaw(s'.takers, known)
  {
    var st :| Enabled(s, st) && s' == Apply(s, st);
    match st
    case World(w) => WorldKeepsSaw(s, w, known);
    case Search(c, q) => SearchKeepsSaw(s, c, q, known);
    case HandOff(c, h) => HandOffKeepsSaw(s, c, h, known);
    case Sweep(r) =>
  }

  /** The tables a client's query saw are those of some earlier moment. */
  lemma {:induction false} QueriesSawRealTables(tr: seq<Sys>, i: nat)
    requires Behaviour(tr) && Init(tr[0]) && i < |tr|
    ensures HoldersSaw(tr[i].cands, PastTables(tr, i)) && TakersSaw(tr[i].takers, PastTables(tr, i))
  {
    if i > 0 {
      QueriesSawRealTables(tr, i - 1);
      assert StepAt(tr, i - 1);
      assert PastTables(tr, i - 1) <= PastTables(tr, i);
      NextKeepsSaw(tr[i - 1], tr[i], PastTables(tr, i));
    }
  }

  /**
   Any run that carries host h was taken by a client of h that asked for all sources or names the job's.
   Either it was meant for h or for anyone and none that the client accepts was newer, in tables that
   existed when its query was answered; or it was made for h, for a job of the last day that is to run
   everywhere and had no run on h in such tables.
   */
  lemma RunsGoWhereTheyMay(tr: seq<Sys>, i: nat, r: nat)
    requires Behaviour(tr) && Init(tr[0]) && i < |tr|
    requires r in tr[i].db.runs && tr[i].db.runs[r].hostId.Some?
    ensures var s, h := tr[i], tr[i].db.runs[r].hostId.value;
            && r in s.takers && s.takers[r].host == h && s.takers[r].origin.seen in PastTables(tr, i)
            && (s.db.runs[r].hostPreference == None || s.db.runs[r].hostPreference == Some(h))
            && s.db.runs[r].jobId in s.db.jobs
            && var job, accepted := s.db.jobs[s.db.runs[r].jobId], s.takers[r].accepted;
            && (accepted.None? || (job.source.Some? && job.source.value in accepted.value))
            && match s.takers[r].origin
               case FromPending(seen) =>
                 NewestAcceptable(seen, h, accepted, r) && r in seen.runs && seen.runs[r].state == Pending
               case FromAlternate(seen, readAt) =>
                 && s.db.runs[r].hostPreference == Some(h)
                 && job.runPreferences == Some("all") && readAt < job.createdTime + 86_400_000
                 && forall q :: q in seen.runs && seen.runs[q].jobId == s.db.runs[r].jobId ==> seen.runs[q].hostId != Some(h)
  {
    PlacedAlways(tr, i);
    QueriesSawRealTables(tr, i);
  }
}

/**
 Clients of one host served one after another, while nothing is pushed: the work the host could be given
 only ever shrinks, whatever other hosts do meanwhile, and when nothing is found there is none left.
 */
module Drain {
  import opened Common
  import opened Store
  import opened Database
  import opened Driver

  ghost function PendingWork(db: Db, host: nat, accepted: Option<seq<string>>): set<nat> {
    set r | r in db.runs && AcceptablePending(db, host, accepted, r)
  }

  ghost function AlternateWork(db: Db, host: nat, accepted: Option<seq<string>>, cutoff: int): set<nat> {
    set j | j in db.jobs && AcceptableAlternate(db, host, accepted, cutoff, j)
  }

  /** Acceptable pending runs, and acceptable recent jobs for all hosts that have no run on this one. */
  ghost function Backlog(db: Db, host: nat, accepted: Option<seq<string>>, now: nat): nat {
    |PendingWork(db, host, accepted)| + |AlternateWork(db, host, accepted, now - DAY_MS)|
  }

  /** Nothing is found exactly when there is nothing. */
  lemma IdleExactly(db: Db, host: nat, accepted: Option<seq<string>>, token: nat, now: nat, w: Option<Work>, db': Db)
    requires Served(db, host, accepted, token, now, w, db')
    ensures w.None? <==> Backlog(db, host, accepted, now) == 0
    ensures w.None? <==> (forall r :: !Offered(db, host, accepted, r)) && (forall j :: !Lacking(db, host, accepted, now, j))
  {
    AsTheColumnsSay(db, host, accepted, now);
    if w.Some? {
      var mid :| Finds(db, host, accepted, now - DAY_MS, now, w, mid);
      if w.value.alternate {
        assert Lacking(db, host, accepted, now, w.value.jobId);
        assert w.value.jobId in AlternateWork(db, host, accepted, now - DAY_MS);
      } else {
        assert Offered(db, host, accepted, w.value.run);
        assert w.value.run in PendingWork(db, host, accepted);
      }
    } else {
      assert PendingWork(db, host, accepted) == {};
      assert AlternateWork(db, host, accepted, now - DAY_MS) == {};
    }
  }

  lemma FewerMembers(a: set<nat>, b: set<nat>, x: nat)
    requires a <= b - {x} && x in b
    ensures |a| < |b|
  {
    SubsetIsSmaller(a, b - {x});
  }

  lemma {:induction false} SubsetIsSmaller(a: set<nat>, b: set<nat>)
    requires a <= b
    ensures |a| <= |b|
  {
    if a != {} {
      var x :| x in a;
      SubsetIsSmaller(a - {x}, b - {x});
    }
  }

  /** Runs on the host are not undone, and jobs only grow older. */
  lemma FewerAlternates(db: Db, db': Db, host: nat, accepted: Option<seq<string>>, cutoff: int, cutoff': int, j: nat)
    requires cutoff <= cutoff' && db'.jobs == db.jobs && AcceptableAlternate(db', host, accepted, cutoff', j)
    requires forall r :: r in db.runs && db.runs[r].hostId == Some(host) ==>
               r in db'.runs && db'.runs[r].hostId == Some(host) && db'.runs[r].jobId == db.runs[r].jobId
    ensures AcceptableAlternate(db, host, accepted, cutoff, j)
  {
  }

  /** A run taken from the pending ones is one fewer of them. */
  lemma TakingShrinksBacklog(db: Db, host: nat, accepted: Option<seq<string>>, r: nat, token: nat, now: nat, later: nat)
    requires db.Valid() && AcceptablePending(db, host, accepted, r) && now <= later
    ensures Backlog(db.Activate(r, host, token, now), host, accepted, later) < Backlog(db, host, accepted, now)
  {
    var db' := db.Activate(r, host, token, now);
    var p, p' := PendingWork(db, host, accepted), PendingWork(db', host, accepted);
    var a, a' := AlternateWork(db, host, accepted, now - DAY_MS), AlternateWork(db', host, accepted, later - DAY_MS);
    forall j | j in a'
      ensures j in a
    {
      FewerAlternates(db, db', host, accepted, now - DAY_MS, later - DAY_MS, j);
    }
    assert p' <= p - {r};
    FewerMembers(p', p, r);
    SubsetIsSmaller(a', a);
  }

  /** A job given a run on this host is one fewer that lacks it. */
  lemma AddingShrinksBacklog(db: Db, host: nat, accepted: Option<seq<string>>, job: nat, token: nat, now: nat, later: nat)
    requires db.Valid() && AcceptableAlternate(db, host, accepted, now - DAY_MS, job) && now <= later
    ensures Backlog(db.InsertRun(PendingRow(job, Some(host), now)).Activate(db.nextRun, host, token, now), host, accepted, later)
         < Backlog(db, host, accepted, now)
  {
    var r := db.nextRun;
    var db' := db.InsertRun(PendingRow(job, Some(host), now)).Activate(r, host, token, now);
    var p, p' := PendingWork(db, host, accepted), PendingWork(db', host, accepted);
    var a, a' := AlternateWork(db, host, accepted, now - DAY_MS), AlternateWork(db', host, accepted, later - DAY_MS);
    assert db'.runs[r].jobId == job && db'.runs[r].hostId == Some(host);
    forall j | j in a'
      ensures j in a
    {
      FewerAlternates(db, db', host, accepted, now - DAY_MS, later - DAY_MS, j);
    }
    assert p' <= p;
    FewerMembers(a', a, job);
    SubsetIsSmaller(p', p);
  }

  /** Each client that is given work leaves strictly less of it. */
  lemma ServingShrinksBacklog(db: Db, host: nat, accepted: Option<seq<string>>, token: nat, now: nat, w: Option<Work>, db': Db, later: nat)
    requires db.Valid() && Served(db, host, accepted, token, now, w, db') && w.Some? && now <= later
    ensures db'.Valid() && Backlog(db', host, accepted, later) < Backlog(db, host, accepted, now)
  {
    if w.value.alternate {
      AddingShrinksBacklog(db, host, accepted, w.value.jobId, token, now, later);
    } else {
      TakingShrinksBacklog(db, host, accepted, w.value.run, token, now, later);
    }
  }

  // ---- What happens elsewhere meanwhile ----

  /** A run is reported on, reaped, started on another host, or made for another host. */
  datatype Elsewhere =
    | Reported(run: nat, at: nat, outcome: Outcome)
    | Lost(run: nat)
    | Taken(run: nat, other: nat, token: nat, start: nat)
    | MadeFor(other: nat, jobId: nat, created: nat)

  predicate NotOurs(db: Db, e: Elsewhere, host: nat) {
    match e
    case Taken(r, other, _, _) => other != host && (r in db.runs ==> db.runs[r].hostId != Some(host))
    case MadeFor(other, j, _) => other != host && j in db.jobs
    case _ => true
  }

  function Changed(db: Db, e: Elsewhere): Db {
    match e
    case Reported(r, at, outcome) => db.Complete(r, at, outcome)
    case Lost(r) => db.Reap(r)
    case Taken(r, other, token, start) => db.Activate(r, other, token, start)
    case MadeFor(other, j, created) => db.InsertRun(PendingRow(j, Some(other), created))
  }

  function After(db: Db, es: seq<Elsewhere>): Db {
    if es == [] then db else Changed(After(db, es[..|es| - 1]), es[|es| - 1])
  }

  predicate NoneOurs(db: Db, es: seq<Elsewhere>, host: nat) {
    es != [] ==> NoneOurs(db, es[..|es| - 1], host) && NotOurs(After(db, es[..|es| - 1]), es[|es| - 1], host)
  }

  /** Nothing more is pending for the host, and it has run what it had run. */
  ghost predicate NoMoreWork(db: Db, db': Db, host: nat) {
    && db'.jobs == db.jobs
    && (forall r :: r in db'.runs && PendingFor(db'.runs[r], Some(host)) ==>
          r in db.runs && PendingFor(db.runs[r], Some(host)) && db'.runs[r].jobId == db.runs[r].jobId)
    && (forall r :: r in db.runs && db.runs[r].hostId == Some(host) ==>
          r in db'.runs && db'.runs[r].hostId == Some(host) && db'.runs[r].jobId == db.runs[r].jobId)
  }

  lemma ElsewhereAddsNoWork(db: Db, e: Elsewhere, host: nat)
    requires db.Valid() && NotOurs(db, e, host)
    ensures Changed(db, e).Valid() && NoMoreWork(db, Changed(db, e), host)
  {
  }

  lemma {:induction false} OthersAddNoWork(db: Db, es: seq<Elsewhere>, host: nat)
    requires db.Valid() && NoneOurs(db, es, host)
    ensures After(db, es).Valid() && NoMoreWork(db, After(db, es), host)
  {
    if es != [] {
      var before := es[..|es| - 1];
      OthersAddNoWork(db, before, host);
      ElsewhereAddsNoWork(After(db, before), es[|es| - 1], host);
    }
  }

  lemma NoMoreWorkNoMoreBacklog(db: Db, db': Db, host: nat, accepted: Option<seq<string>>, now: nat)
    requires NoMoreWork(db, db', host)
    ensures Backlog(db', host, accepted, now) <= Backlog(db, host, accepted, now)
  {
    var a, a' := AlternateWork(db, host, accepted, now - DAY_MS), AlternateWork(db', host, accepted, now - DAY_MS);
    forall j | j in a'
      ensures j in a
    {
      FewerAlternates(db, db', host, accepted, now - DAY_MS, now - DAY_MS, j);
    }
    SubsetIsSmaller(PendingWork(db', host, accepted), PendingWork(db, host, accepted));
    SubsetIsSmaller(a', a);
  }

  // ---- Visit after visit ----

  /** A client of the host comes by: how it is served, the tables it leaves, and what others do until the next. */
  datatype Visit = Visit(token: nat, now: nat, w: Option<Work>, left: Db, others: seq<Elsewhere>)

  ghost predicate VisitOk(db: Db, v: Visit, host: nat, accepted: Option<seq<string>>, next: Db) {
    && Served(db, host, accepted, v.token, v.now, v.w, v.left)
    && NoneOurs(v.left, v.others, host) && next == After(v.left, v.others)
  }

  /** Successive visits, `dbs[i]` being the tables that visit `i` finds, the clock not going back. */
  ghost predicate Visits(dbs: seq<Db>, visits: seq<Visit>, host: nat, accepted: Option<seq<string>>) {
    && |dbs| == |visits| + 1 && dbs[0].Valid()
    && (forall i :: 0 <= i < |visits| ==> VisitOk(dbs[i], visits[i], host, accepted, dbs[i + 1]))
    && (forall i, j :: 0 <= i < j < |visits| ==> visits[i].now <= visits[j].now)
  }

  lemma VisitShrinksBacklog(db: Db, v: Visit, host: nat, accepted: Option<seq<string>>, next: Db, later: nat)
    requires db.Valid() && VisitOk(db, v, host, accepted, next) && v.w.Some? && v.now <= later
    ensures next.Valid() && Backlog(next, host, accepted, later) < Backlog(db, host, accepted, v.now)
  {
    ServingShrinksBacklog(db, host, accepted, v.token, v.now, v.w, v.left, later);
    OthersAddNoWork(v.left, v.others, host);
    NoMoreWorkNoMoreBacklog(v.left, next, host, accepted, later);
  }

  /** At most as many visits find work as there was work when they began. */
  lemma {:induction false} HostDrains(dbs: seq<Db>, visits: seq<Visit>, host: nat, accepted: Option<seq<string>>, n: nat)
    requires Visits(dbs, visits, host, accepted) && n < |visits|
    requires forall i :: 0 <= i < n ==> visits[i].w.Some?
    ensures dbs[n].Valid() && n + Backlog(dbs[n], host, accepted, visits[n].now) <= Backlog(dbs[0], host, accepted, visits[0].now)
  {
    if n > 0 {
      HostDrains(dbs, visits, host, accepted, n - 1);
      VisitShrinksBacklog(dbs[n - 1], visits[n - 1], host, accepted, dbs[n], visits[n].now);
    }
  }

  /** A wanted job of the last day that is to run everywhere. */
  ghost predicate IsDue(job: Job, accepted: Option<seq<string>>, now: nat) {
    job.runPreferences == Some("all") && now < job.createdTime + 86_400_000 && Wanted(accepted, job)
  }

  /** So of any Backlog + 1 visits one finds nothing, and the first such has the host's work all done. */
  lemma DrainedHostRanEverything(dbs: seq<Db>, visits: seq<Visit>, host: nat, accepted: Option<seq<string>>) returns (n: nat)
    requires Visits(dbs, visits, host, accepted)
    requires |visits| > 0 && |visits| > Backlog(dbs[0], host, accepted, visits[0].now)
    ensures n < |visits| && n <= Backlog(dbs[0], host, accepted, visits[0].now) && visits[n].w.None?
    ensures forall i :: 0 <= i < n ==> visits[i].w.Some?
    ensures forall r :: !Offered(dbs[n], host, accepted, r)
    ensures forall j | j in dbs[n].jobs && IsDue(dbs[n].jobs[j], accepted, visits[n].now) ::
              exists r :: r in dbs[n].runs && dbs[n].runs[r].hostId == Some(host) && dbs[n].runs[r].jobId == j
  {
    n := 0;
    while n < |visits| && visits[n].w.Some?
      invariant n <= |visits| && forall i :: 0 <= i < n ==> visits[i].w.Some?
    {
      n := n + 1;
    }
    var last := if n < |visits| then n else n - 1;
    HostDrains(dbs, visits, host, accepted, last);
    assert VisitOk(dbs[last], visits[last], host, accepted, dbs[last + 1]);
    IdleExactly(dbs[last], host, accepted, visits[last].token, visits[last].now, visits[last].w, visits[last].left);
    assert n < |visits|;
    NothingLeft(dbs[n], host, accepted, visits[n].now);
  }

  lemma NothingLeft(db: Db, host: nat, accepted: Option<seq<string>>, now: nat)
    requires forall j :: !Lacking(db, host, accepted, now, j)
    ensures forall j | j in db.jobs && IsDue(db.jobs[j], accepted, now) ::
              exists r :: r in db.runs && db.runs[r].hostId == Some(host) && db.runs[r].jobId == j
  {
    forall j | j in db.jobs && IsDue(db.jobs[j], accepted, now)
      ensures exists r :: r in db.runs && db.runs[r].hostId == Some(host) && db.runs[r].jobId == j
    {
      assert !Lacking(db, host, accepted, now, j);
    }
  }
}
